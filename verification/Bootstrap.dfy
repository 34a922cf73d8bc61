/** Every bootstrap call for one instance carries one password, drawn once, and the password stored in
    the end is that one. */
module Bootstrap {
  import opened Records
  import opened Execution
  import opened Store
  import opened Events
  import opened Frames
  import opened Soundness
  import opened Tables
  import opened Asks
  import Protocol
  import U = UpdateSteps
  import D = TeardownSteps
  import T = TemplateSteps
  import W = WorkspaceSteps
  import Placement
  import IR = InstanceRequests

  /** Whatever credential an instance holds is the password drawn for it. */
  predicate Holds(secrets: map<nat, string>, i: nat, instance: Instance) {
    && (instance.candidate.Some? ==> i in secrets && instance.candidate.value == secrets[i])
    && (instance.password.Some? ==> i in secrets && instance.password.value == secrets[i])
    && (i in secrets ==> instance.candidate.Some? || instance.password.Some?)
  }

  ghost predicate InstancesHold(secrets: map<nat, string>, instances: map<nat, Instance>) {
    forall i <- instances :: Holds(secrets, i, instances[i])
  }

  ghost predicate WorkersHold(secrets: map<nat, string>, workers: map<Claim, Local>) {
    forall c <- workers :: workers[c].BootstrapRead? && workers[c].password.Some? ==>
      Id(c) in secrets && secrets[Id(c)] == workers[c].password.value
  }

  ghost predicate CallsHold(secrets: map<nat, string>, log: seq<Fact>) {
    forall i, p :: SentBootstrap(i, p) in log ==> i in secrets && secrets[i] == p
  }

  ghost predicate OnePassword(s: State) {
    InstancesHold(s.secrets, s.instances) && WorkersHold(s.secrets, s.workers) && CallsHold(s.secrets, s.log)
  }

  /** A password once drawn is never drawn again. */
  ghost predicate SecretsStay(secrets: map<nat, string>, secrets': map<nat, string>) {
    forall i <- secrets :: i in secrets' && secrets'[i] == secrets[i]
  }

  lemma CredentialsHold(s: State, s': State, c: Claim, a: Instance, b: Instance)
    requires CredentialsMove(s, s', c, a, b) && Holds(s.secrets, Id(c), a)
    ensures SecretsStay(s.secrets, s'.secrets) && Holds(s'.secrets, Id(c), b)
    ensures forall i :: i != Id(c) ==> (i in s'.secrets <==> i in s.secrets) && (i in s.secrets ==> s'.secrets[i] == s.secrets[i])
  {
    hide Id;
  }

  lemma PlainKeepsInstances(s: State, s': State, c: Claim)
    requires InstancesTouched(s, s', c) && InstancesHold(s.secrets, s.instances)
    ensures SecretsStay(s.secrets, s'.secrets) && InstancesHold(s'.secrets, s'.instances)
  {
    if s'.instances != s.instances || s'.secrets != s.secrets {
      CredentialsHold(s, s', c, s.instances[Id(c)], s'.instances[Id(c)]);
      hide CredentialsMove, Owned, Id, InstanceKept;
    }
  }

  lemma PlainKeepsWorkers(s: State, s': State, c: Claim)
    requires c in s.workers && OnlyWorker(s, s', c) && LocalMoves(s, s', c) && SecretsStay(s.secrets, s'.secrets)
    requires WorkersHold(s.secrets, s.workers) && InstancesHold(s'.secrets, s'.instances)
    ensures WorkersHold(s'.secrets, s'.workers)
  {
    assert s'.workers[c].BootstrapRead? && s'.workers[c].password.Some? && s'.workers[c] != s.workers[c] ==>
             (Id(c) in s'.instances && s'.instances[Id(c)].candidate == s'.workers[c].password);
    hide LocalMoves, Id;
  }

  lemma PlainKeepsCalls(s: State, s': State, c: Claim)
    requires LogMoves(s, s', c) && SecretsStay(s.secrets, s'.secrets)
    requires WorkersHold(s.secrets, s.workers) && CallsHold(s.secrets, s.log)
    ensures CallsHold(s'.secrets, s'.log)
  {
    hide Owned, Id;
  }

  lemma PlainKeepsPassword(s: State, s': State, c: Claim)
    requires c in s.workers && Plain(s, s', c) && OnePassword(s)
    ensures OnePassword(s') && SecretsStay(s.secrets, s'.secrets)
  {
    assert InstancesTouched(s, s', c) && OnlyWorker(s, s', c) && LocalMoves(s, s', c) && LogMoves(s, s', c);
    hide Plain, InstancesTouched, OnlyWorker, LocalMoves, LogMoves, InstancesHold, WorkersHold, CallsHold, SecretsStay;
    PlainKeepsInstances(s, s', c);
    PlainKeepsWorkers(s, s', c);
    PlainKeepsCalls(s, s', c);
  }

  /** No password is drawn or sent; instances keep their credentials, disappear, or are new without any. */
  ghost predicate Quiet(s: State, s': State) {
    && s'.secrets == s.secrets
    && CredentialsQuiet(s.secrets, s.instances, s'.instances)
    && WorkersQuiet(s.workers, s'.workers)
    && LogQuiet(s.log, s'.log)
  }

  ghost predicate CredentialsQuiet(secrets: map<nat, string>, xs: map<nat, Instance>, xs': map<nat, Instance>) {
    forall i <- xs' ::
      if i in xs then xs'[i].password == xs[i].password && xs'[i].candidate == xs[i].candidate
      else i !in secrets && xs'[i].password.None? && xs'[i].candidate.None?
  }

  ghost predicate WorkersQuiet(workers: map<Claim, Local>, workers': map<Claim, Local>) {
    forall c <- workers' :: if c in workers then workers'[c] == workers[c] else workers'[c].Started?
  }

  ghost predicate LogQuiet(log: seq<Fact>, log': seq<Fact>) {
    forall i, p :: SentBootstrap(i, p) in log' ==> SentBootstrap(i, p) in log
  }

  lemma QuietKeepsPassword(s: State, s': State)
    requires Quiet(s, s') && OnePassword(s)
    ensures OnePassword(s') && SecretsStay(s.secrets, s'.secrets)
  {
    hide Id;
  }

  lemma RedeliveryIsQuiet(s: State, s': State)
    requires Redelivers(s, s')
    ensures Quiet(s, s')
  {
    hide CoreRedelivers, Begins;
  }

  lemma FinalizeIsQuiet(s: State, c: Claim)
    ensures Quiet(s, U.FinalizeUpdate(s, c))
  {
    hide U.Settle, U.Orphans, Owned, DeleteRows, CompleteExecution, RequestJob, Id;
  }

  lemma RemoveLocalIsQuiet(s: State, c: Claim)
    ensures Quiet(s, D.RemoveLocal(s, c))
  {
    hide D.AssignmentsOf, D.WorkspacesOf, D.MembersOf, Owned, DeleteRows, CompleteAndDelete, Id;
  }

  lemma RemoveAssignmentIsQuiet(s: State, c: Claim)
    ensures Quiet(s, T.RemoveAssignment(s, c))
  {
    hide T.PairWorkspaces, Owned, DeleteRows, CompleteAndDelete, Id;
  }

  lemma FinishDeleteWorkspaceIsQuiet(s: State, c: Claim)
    ensures Quiet(s, W.FinishDeleteWorkspace(s, c))
  {
    hide Owned, CompleteAndDelete, Id;
  }

  lemma InstanceRequestLogs(s: State, r: InstanceRequest)
    ensures var s' := AnswerInstance(s, r).0;
            || s'.log == s.log
            || (r.DropInstance? && s'.log == s.log + [CreationAbandoned(s.core.nextId)] && r.i in s.instances
                && s.instances[r.i].password.None? && InstanceRow(r.i) in s'.core.life
                && s'.core.life[InstanceRow(r.i)] == Life(Deleting, Pending, Some(s.core.nextId), Some(RemoveInstance)))
  {
    hide IR.HasActiveAssignment, IR.RetryFailedMembers, IR.UsernameTaken, IR.MemberRefusal, IR.StageUpdate, IR.StagedJob;
  }

  lemma NewInstanceIsBare(s: State, r: InstanceRequest, i: nat)
    requires i in AnswerInstance(s, r).0.instances && i !in s.instances
    ensures i == s.core.nextId && AnswerInstance(s, r).0.instances[i] == Instance(None, None, None, false, false)
  {
    hide IR.HasActiveAssignment, IR.RetryFailedMembers, IR.UsernameTaken, IR.MemberRefusal, IR.StageUpdate, IR.StagedJob, RequestJob;
    hide Placement.Place, IR.LifecycleRefusal;
  }

  lemma InstanceRequestKeepsCredentials(s: State, r: InstanceRequest)
    requires Protocol.Inv(s.core) && s.core.nextId !in s.instances && s.core.nextId !in s.secrets
    ensures CredentialsQuiet(s.secrets, s.instances, AnswerInstance(s, r).0.instances)
  {
    InstanceRequestAsks(s, r);
    var s' := AnswerInstance(s, r).0;
    forall i | i in s'.instances && i !in s.instances
      ensures i !in s.secrets && s'.instances[i] == Instance(None, None, None, false, false)
    {
      NewInstanceIsBare(s, r, i);
    }
    hide AnswerInstance, Asked, Protocol.Inv;
  }

  lemma InstanceRequestIsQuiet(s: State, r: InstanceRequest)
    requires Sound(s) && Keyed(s)
    ensures Quiet(s, AnswerInstance(s, r).0)
  {
    assert s.core.nextId !in s.instances && s.core.nextId !in s.secrets;
    InstanceRequestAsks(s, r);
    InstanceRequestLogs(s, r);
    hide AnswerInstance, Asked, Keyed, CredentialsQuiet;
    InstanceRequestKeepsCredentials(s, r);
    hide Protocol.Inv;
  }

  lemma TemplateRequestIsQuiet(s: State, r: TemplateRequest)
    requires Sound(s) && Keyed(s)
    ensures Quiet(s, AnswerTemplate(s, r).0)
  {
    assert TemplateRow(s.core.nextId) !in s.core.life;
    TemplateRequestAsks(s, r);
    hide AnswerTemplate, Asked, Sound, Keyed;
  }

  lemma WorkspaceRequestIsQuiet(s: State, r: WorkspaceRequest)
    requires Sound(s)
    ensures Quiet(s, AnswerWorkspace(s, r).0)
  {
    WorkspaceRequestAsks(s, r);
    hide AnswerWorkspace, Asked, Sound;
  }

  // ---------- what the invariant gives ----------

  /** All bootstrap calls ever made for one instance carried the same password, and the one it stores
      in the end is that password. */
  lemma BootstrapAgrees(s: State, i: nat, p: string, q: string)
    requires OnePassword(s) && SentBootstrap(i, p) in s.log
    ensures SentBootstrap(i, q) in s.log ==> q == p
    ensures i in s.instances && s.instances[i].password.Some? ==> s.instances[i].password.value == p
    ensures i in s.instances && s.instances[i].candidate.Some? ==> s.instances[i].candidate.value == p
  {}
}
