/** What a worker has selected stays selected until its step ends: the targets of a publication, and the
    members and accounts of a cleanup. */
module Selections {
  import opened Records
  import opened Execution
  import opened Store
  import opened Events
  import opened Frames
  import opened Soundness
  import opened Tables
  import opened Coverage
  import opened Accounts
  import opened Campaigns
  import opened System
  import opened ProtocolLaws
  import opened StepLaws
  import opened PublicationLaws
  import InstanceLaws
  import Protocol
  import Runs
  import Theorems
  import WorkerSteps
  import U = UpdateSteps
  import D = TeardownSteps
  import T = TemplateSteps
  import W = WorkspaceSteps
  import IR = InstanceRequests

  /** The worker is where it was, or further on with the same selection. */
  predicate Follows(l: Local, l': Local) {
    && (l.TargetsRead? || l.Publishing? ==> (l'.TargetsRead? || l'.Publishing?) && l'.targets == l.targets)
    && (l.CleanupRead? ==> l' == l || (l'.CleanupDone? && l'.claimed == l.claimed))
    && (l.CleanupDone? ==> l' == l)
  }

  lemma MoveFollows(s: State, s': State, c: Claim)
    requires c in s.workers && c in s'.workers && LocalMoves(s, s', c) && Fits(c.step, s.workers[c])
    ensures Follows(s.workers[c], s'.workers[c])
  {
    hide Id, U.SetStatus, U.Reconciled, U.ExpectedNames, U.PolicyOf, U.Unsettled, T.AreTargets, T.TemplateOf;
  }

  lemma DeletingKeepsWorkers(s: State, d: Claim, act: Act)
    requires Sound(s) && d in s.workers && Deletes(act)
    ensures DoWork(s, d, act).workers == s.workers
  {
    hide Sound, Owned, Id, U.FinalizeUpdate, D.RemoveLocal, T.RemoveAssignment, W.FinishDeleteWorkspace;
    hide D.MembersOf, D.WorkspacesOf, D.AssignmentsOf, U.Settle, U.Orphans, T.PairWorkspaces, DeleteRows, CompleteAndDelete, CompleteExecution, RequestJob;
    if DoWork(s, d, act) != s {
      if act.Update? { FinalizeRestages(s, d); FinalizeMoves(s, d); }
      else if act.Teardown? { RemoveLocalMoves(s, d); }
      else if act.OfTemplate? { RemoveAssignmentMoves(s, d); }
      else { FinishDeleteWorkspaceMoves(s, d); }
    }
  }

  lemma WorkFollows(s: State, d: Claim, act: Act, c: Claim)
    requires Sound(s) && LocalsFit(s.workers) && c in s.workers
    ensures c in DoWork(s, d, act).workers && Follows(s.workers[c], DoWork(s, d, act).workers[c])
  {
    hide Sound, DoWork, Plain;
    if d !in s.workers {
      StrangersStutter(s, d, act);
    } else if Deletes(act) {
      DeletingKeepsWorkers(s, d, act);
    } else {
      WorkIsPlain(s, d, act);
      PlainFollows(s, DoWork(s, d, act), d, c);
    }
  }

  lemma PlainFollows(s: State, s': State, d: Claim, c: Claim)
    requires d in s.workers && c in s.workers && LocalsFit(s.workers) && Plain(s, s', d)
    ensures c in s'.workers && Follows(s.workers[c], s'.workers[c])
  {
    assert OnlyWorker(s, s', d) && LocalMoves(s, s', d) && Fits(c.step, s.workers[c]);
    hide Plain, LocalMoves, LocalsFit, Fits;
    if c == d { MoveFollows(s, s', c); }
  }

  lemma AnswerKeepsWorkers(s: State, request: Request)
    requires Sound(s) && Keyed(s)
    ensures Answer(s, request).0.workers == s.workers
  {
    hide Sound, Keyed, AnswerInstance, AnswerTemplate, AnswerWorkspace;
    match request
    case ToInstance(r) => InstanceRequestFields(s, r);
    case ToTemplate(r) => TemplateRequestFields(s, r);
    case ToWorkspace(r) => WorkspaceRequestFields(s, r);
  }

  lemma ApplyFollows(s: State, e: Event, c: Claim)
    requires Good(s) && c in s.workers
    ensures c in Apply(s, e).workers && Follows(s.workers[c], Apply(s, e).workers[c])
  {
    hide Good, Sound, Keyed, Linked, LocalsFit, DoWork, Answer, WorkerSteps.Deliver, WorkerSteps.Reclaim, CoreRedelivers;
    GoodSound(s);
    match e
    case Deliver(id, task, now) => DeliverRedelivers(s, id, task, now);
    case Reclaim(id, staleBefore) => ReclaimRedelivers(s, id, staleBefore);
    case Work(d, act) => WorkFollows(s, d, act, c);
    case Ask(request) => AnswerKeepsWorkers(s, request);
  }

  lemma FollowsOn(l1: Local, l2: Local, l3: Local)
    requires Follows(l1, l2) && Follows(l2, l3)
    ensures Follows(l1, l3)
  {}

  lemma {:induction false} RunFollows(s: State, events: seq<Event>, c: Claim)
    requires Good(s) && c in s.workers
    ensures c in Run(s, events).workers && Follows(s.workers[c], Run(s, events).workers[c])
    decreases |events|
  {
    hide Good, Apply, Follows;
    if events == [] {
      assert Follows(s.workers[c], s.workers[c]) by { Same(s.workers[c]); }
    } else {
      var s' := Apply(s, events[0]);
      ApplyKeepsGood(s, events[0]);
      ApplyFollows(s, events[0], c);
      RunFollows(s', events[1..], c);
      FollowsOn(s.workers[c], s'.workers[c], Run(s', events[1..]).workers[c]);
    }
  }

  lemma Same(l: Local)
    ensures Follows(l, l)
  {}

  // ---------- a synchronisation publishes to whatever it had to select ----------

  /** After a successful synchronisation every assignment that was created and settled on a started, settled
      instance when the targets were read carries the fetched commit at the current revision. */
  lemma SelectedAreSynchronised(before: seq<Event>, c: Claim, targets: seq<nat>, after: seq<Event>, a: nat)
    requires var s := Run(START, before); c.step == SyncTemplate && T.ReadTargets(s, c, targets) != s && Synchronised(s, Id(c), a)
    requires var s2 := Run(T.ReadTargets(Run(START, before), c, targets), after); T.FinishPublication(s2, c) != s2
    ensures var s2 := Run(T.ReadTargets(Run(START, before), c, targets), after);
            var s3, t := T.FinishPublication(s2, c), Id(c);
            && c in s2.workers && s2.workers[c].Publishing? && t in s3.templates && a in s3.assignments && s3.assignments[a].deployment.Some?
            && Carries(s3.assignments[a].deployment.value, s2.workers[c].commit, s3.templates[t].revision)
  {
    hide Good, Run, T.ReadTargets, T.FinishPublication, PublishOk, Synchronised, Follows, Carries, Id;
    var s := Run(START, before);
    var s1 := T.ReadTargets(s, c, targets);
    var s2 := Run(s1, after);
    ReachableIsGood(before);
    TargetsSelected(s, c, targets);
    ReadIsEvent(s, c, targets);
    RunKeepsGood(s1, after);
    RunFollows(s1, after, c);
    SelectionStays(TargetsRead(targets), s2.workers[c]);
    FinishedSelection(s2, c, a);
  }

  lemma SelectionStays(l: Local, l': Local)
    requires l.TargetsRead? && Follows(l, l')
    ensures (l'.TargetsRead? || l'.Publishing?) && l'.targets == l.targets
  {}

  lemma ReadIsEvent(s: State, c: Claim, targets: seq<nat>)
    requires Good(s)
    ensures Good(T.ReadTargets(s, c, targets))
  {
    hide Good, T.ReadTargets;
    ApplyKeepsGood(s, Event.Work(c, OfTemplate(ReadTargets(targets))));
  }

  lemma FinishedSelection(s: State, c: Claim, a: nat)
    requires Good(s) && c in s.workers && T.FinishPublication(s, c) != s && c.step == SyncTemplate
    requires (s.workers[c].TargetsRead? || s.workers[c].Publishing?) && a in s.workers[c].targets
    ensures var s', t := T.FinishPublication(s, c), Id(c);
            && s.workers[c].Publishing? && t in s'.templates && a in s'.assignments && s'.assignments[a].deployment.Some?
            && Carries(s'.assignments[a].deployment.value, s.workers[c].commit, s'.templates[t].revision)
  {
    hide Good, T.FinishPublication, BusyLive, SuccessKnown, CreatedKnown, Campaigning, Id;
    Theorems.GoodPublishes(s);
    PublicationComplete(s, c, a);
    assert T.TemplateOf(s, c) == Id(c);
  }

  // ---------- the accounts of departing members go ----------

  lemma StatusOnlyOn(a: Members, b: Members, c: Members, i: nat)
    requires StatusOnly(a, b, i) && StatusOnly(b, c, i)
    ensures StatusOnly(a, c, i)
  {}

  lemma StatusOnlySame(a: Members, i: nat)
    ensures StatusOnly(a, a, i)
  {}

  /** While a cleanup is current its members change their status only. */
  lemma {:induction false} CleanupHolds(s: State, events: seq<Event>, c: Claim)
    requires Good(s) && c in s.workers && c.step == CleanupUsers && Owned(Run(s, events).core, c)
    ensures Owned(s.core, c) && StatusOnly(s.members, Run(s, events).members, Id(c))
    decreases |events|
  {
    hide Good, Apply, Owned, Id, StatusOnly, Minds, Protocol.Inv, Protocol.Evolves, Sound, Keyed, Linked, LocalsFit;
    if events == [] {
      StatusOnlySame(s.members, Id(c));
    } else {
      var s' := Apply(s, events[0]);
      ApplyKeepsGood(s, events[0]);
      ApplyFollows(s, events[0], c);
      CleanupHolds(s', events[1..], c);
      ApplyEvolves(s, events[0]);
      GoodSound(s);
      Theorems.GoodInv(s);
      Theorems.GoodInv(s');
      SoundCore(s);
      Runs.OwnershipIsNotRegained(s.core, s'.core, c);
      ApplyMinds(s, events[0]);
      MindsHolds(s, s', c);
      StatusOnlyOn(s.members, s'.members, Run(s', events[1..]).members, Id(c));
    }
  }

  lemma MindsHolds(s: State, s': State, c: Claim)
    requires Minds(s, s') && c in s.workers && Owned(s.core, c) && c.step == CleanupUsers
    ensures StatusOnly(s.members, s'.members, Id(c))
  {
    hide Owned, Id, StatusOnly, CleanupsRead;
  }

  /** Another member row of the instance keeps the name: one that is not a departure the cleanup has taken. */
  predicate NameKept(members: Members, i: nat, m: nat, name: string) {
    exists n <- members ::
      && n != m && members[n].instance == i && members[n].username == name
      && !(members[n].action == Deleting && (members[n].status == Running || members[n].status == Error))
  }

  /** When the end of an update removes a member, its account was not expected by the cleanup of that attempt,
      unless another member row of the instance kept the name when the cleanup was read. */
  lemma DepartingAccountsAreUnexpected(before: seq<Event>, c: Claim, after: seq<Event>, m: nat)
    requires var s := Run(START, before); c in s.workers && c.step == CleanupUsers && U.ClaimCleanup(s, c) != s
    requires var s2 := Run(U.ClaimCleanup(Run(START, before), c), after);
             U.FinalizeUpdate(s2, c) != s2 && m in s2.members && m !in U.FinalizeUpdate(s2, c).members
    ensures var s := Run(START, before);
            var s1 := U.ClaimCleanup(s, c); var s2 := Run(s1, after);
            && c in s1.workers && s1.workers[c].CleanupRead? && m in s.members && s.members[m].action == Deleting
            && m in s1.workers[c].claimed && s.members[m].username == s2.members[m].username
            && (s2.members[m].username in s1.workers[c].expected ==> NameKept(s.members, Id(c), m, s2.members[m].username))
  {
    hide Good, Run, U.ClaimCleanup, U.FinalizeUpdate, Follows, Id, StatusOnly, NameKept, Sound, Keyed, Linked, LocalsFit, Owned;
    var s := Run(START, before);
    var s1 := U.ClaimCleanup(s, c);
    var s2 := Run(s1, after);
    ReachableIsGood(before);
    CleanupReads(s, c);
    RunKeepsGood(s1, after);
    RunFollows(s1, after, c);
    GoodSound(s2);
    Departs(s2, c, m);
    CleanupHolds(s1, after, c);
    CleanupStays(s1.workers[c], s2.workers[c]);
    Named(s, c, s2.members, m);
  }

  lemma CleanupReads(s: State, c: Claim)
    requires Good(s) && c in s.workers && c.step == CleanupUsers && U.ClaimCleanup(s, c) != s
    ensures Good(U.ClaimCleanup(s, c)) && s.workers[c] == Started && Id(c) in s.instances
    ensures c in U.ClaimCleanup(s, c).workers && U.ClaimCleanup(s, c).workers[c].CleanupRead?
  {
    assert s.workers[c] == Started && Id(c) in s.instances by { hide Good; }
    hide Good, Id;
    CleanupTaken(s, c);
    hide U.ClaimCleanup;
    ApplyKeepsGood(s, Event.Work(c, Update(ClaimCleanup)));
  }

  lemma CleanupStays(l: Local, l': Local)
    requires l.CleanupRead? && Follows(l, l') && l'.CleanupDone?
    ensures l'.claimed == l.claimed
  {}

  lemma Departs(s: State, c: Claim, m: nat)
    requires Sound(s) && c in s.workers && U.FinalizeUpdate(s, c) != s && m in s.members && m !in U.FinalizeUpdate(s, c).members
    ensures s.workers[c].CleanupDone? && m in s.workers[c].claimed && Owned(s.core, c)
    ensures s.members[m].instance == Id(c) && s.members[m].action == Deleting
  {
    FinalizeRestages(s, c);
    FinalizeMoves(s, c);
    SettledExactly(s.members, Id(c), s.workers[c].claimed);
    hide U.FinalizeUpdate, Sound, Owned, Id, U.Settle;
  }

  lemma Named(s: State, c: Claim, members: Members, m: nat)
    requires c in s.workers && c.step == CleanupUsers && s.workers[c] == Started && Id(c) in s.instances && U.ClaimCleanup(s, c) != s
    requires StatusOnly(U.ClaimCleanup(s, c).members, members, Id(c))
    requires c in U.ClaimCleanup(s, c).workers && U.ClaimCleanup(s, c).workers[c].CleanupRead?
    requires m in U.ClaimCleanup(s, c).workers[c].claimed
    requires m in members && members[m].instance == Id(c) && members[m].action == Deleting
    ensures m in s.members && s.members[m].action == Deleting && s.members[m].username == members[m].username
    ensures members[m].username in U.ClaimCleanup(s, c).workers[c].expected ==> NameKept(s.members, Id(c), m, members[m].username)
  {
    CleanupTaken(s, c);
    hide U.ClaimCleanup, Id;
  }

  // ---------- a failed creation can be given up ----------

  /** When the creation of an instance fails before it has a password, and no assignment holds the instance,
      its deletion is accepted and starts where there is nothing to remove from Coder. */
  lemma FailedCreationIsDroppable(s: State, c: Claim)
    requires Good(s) && c in s.workers && Owned(s.core, c) && s.core.jobs[c.job].name == InstanceCreate
    requires Id(c) in s.instances && s.instances[Id(c)].password.None? && InstanceLaws.Free(s, Id(c))
    ensures var s' := Apply(s, Event.Work(c, Common(Fail))); var i := Id(c);
            var (s2, reply) := IR.RequestDeletion(s', i);
            && reply == Accepted(Some(s'.core.nextId)) && InstanceRow(i) in s'.core.life
            && s'.core.life[InstanceRow(i)].action == Creating && s'.core.life[InstanceRow(i)].status == Error
            && Staged(s'.core, s2.core, s'.core.nextId, InstanceRow(i), InstanceDelete, RemoveInstance, Deleting)
  {
    hide Good, Id, Owned, FailExecution, InstanceLaws.Free, IR.RequestDeletion;
    var s', i := Apply(s, Event.Work(c, Common(Fail))), Id(c);
    FailIs(s, c);
    CreationOwns(s, c);
    ReleasedRow(s.core, c, InstanceRow(i));
    FreeStays(s, c);
    InstanceLaws.DeletionAccepts(s', i);
  }

  lemma FailIs(s: State, c: Claim)
    requires c in s.workers
    ensures Apply(s, Event.Work(c, Common(Fail))) == s.(core := FailExecution(s.core, c))
  {
    hide FailExecution;
  }

  lemma CreationOwns(s: State, c: Claim)
    requires Good(s) && c in s.workers && Owned(s.core, c) && s.core.jobs[c.job].name == InstanceCreate
    ensures c.resource == Some(InstanceRow(Id(c))) && s.core.jobs[c.job].resource == c.resource
    ensures InstanceRow(Id(c)) in s.core.life && s.core.life[InstanceRow(Id(c))].action == Creating
  {
    hide Good, Sound, Keyed, Linked, LocalsFit;
    GoodSound(s);
    SoundCore(s);
    assert Protocol.JobOk(s.core, c.job) && Protocol.TokenOk(s.core, c);
    hide Protocol.Inv;
  }

  /** The failure changes the row of the instance only. */
  lemma FreeStays(s: State, c: Claim)
    requires Owned(s.core, c) && c.resource == Some(InstanceRow(Id(c))) && s.core.jobs[c.job].resource == c.resource && InstanceLaws.Free(s, Id(c))
    ensures InstanceLaws.Free(s.(core := FailExecution(s.core, c)), Id(c))
  {
    FailRecords(s.core, c);
    hide Owned, FailExecution, Id;
  }
}
