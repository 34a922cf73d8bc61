/** No member change accepted during an update is lost: a member counts as settled only after Argo CD
    accepted a policy with its current name and role in the same job. Taking the members for an update
    is the one transaction without a fence that can break this; `TakingCovers` says exactly when it
    does not. */
module Coverage {
  import opened Records
  import opened Execution
  import opened Store
  import opened Events
  import opened Fencing
  import opened Frames
  import opened Soundness
  import opened Tables
  import opened Asks
  import opened Campaigns
  import opened Readiness
  import Protocol
  import Runs
  import Bootstrap
  import DeletionOrder
  import WorkerSteps
  import U = UpdateSteps
  import D = TeardownSteps
  import T = TemplateSteps
  import W = WorkspaceSteps
  import IR = InstanceRequests

  type Members = map<nat, Member>
  type Policy = set<(string, Role)>

  /** A member that an attempt has claimed or that a failed attempt left behind. */
  predicate Reconcilable(m: Member) {
    m.status == Running || m.status == Error
  }

  predicate Carried(m: Member, policy: Policy) {
    m.action == Deleting || (m.username, m.role) in policy
  }

  /** The names and roles in the policies that were accepted for a job. */
  ghost function Known(log: seq<Fact>, job: nat): Policy {
    set fact, entry | fact in log && fact.AcceptedPolicy? && fact.job == job && entry in fact.policy :: entry
  }

  /** The policy carries every member of the instance that the job is about to settle. */
  ghost predicate Covers(members: Members, i: nat, policy: Policy) {
    forall m <- members | members[m].instance == i && Reconcilable(members[m]) :: Carried(members[m], policy)
  }

  ghost predicate AllClaimed(members: Members, i: nat, claimed: set<nat>) {
    forall m <- members | members[m].instance == i && Reconcilable(members[m]) :: m in claimed && members[m].status == Running
  }

  ghost predicate AllExpected(members: Members, i: nat, claimed: set<nat>, expected: set<string>) {
    forall m <- members | members[m].instance == i && (members[m].action != Deleting || m !in claimed) ::
      members[m].username in expected
  }

  ghost predicate AttemptCovers(s: State, c: Claim)
    requires c in s.workers
  {
    match s.workers[c]
    case PolicyRead(_, policy) => Covers(s.members, Id(c), policy + Known(s.log, c.job))
    case PolicyAccepted(_, _) => Covers(s.members, Id(c), Known(s.log, c.job))
    case CleanupRead(claimed, _, _) => AllClaimed(s.members, Id(c), claimed)
    case CleanupDone(claimed, _) => AllClaimed(s.members, Id(c), claimed)
    case _ => true
  }

  ghost predicate AttemptsCover(s: State) {
    forall c <- s.workers | Owned(s.core, c) :: AttemptCovers(s, c)
  }

  predicate AtCleanup(s: State, i: nat) {
    && InstanceRow(i) in s.core.life && s.core.life[InstanceRow(i)].step == Some(CleanupUsers)
    && s.core.life[InstanceRow(i)].job.Some?
  }

  /** While an instance is at its cleanup step, the accepted policies of its job carry its members. */
  ghost predicate CleanupCovered(s: State, i: nat) {
    AtCleanup(s, i) ==> Covers(s.members, i, Known(s.log, s.core.life[InstanceRow(i)].job.value))
  }

  ghost predicate CleanupsCovered(s: State) {
    forall i :: CleanupCovered(s, i)
  }

  function Claims(l: Local): set<nat> {
    match l
    case PolicyRead(claimed, _) => claimed
    case PolicyAccepted(claimed, _) => claimed
    case CleanupRead(claimed, _, _) => claimed
    case CleanupDone(claimed, _) => claimed
    case _ => {}
  }

  /** What a worker has claimed belongs to its own instance. */
  ghost predicate ClaimsOwn(workers: map<Claim, Local>, members: Members, nextId: nat) {
    forall c <- workers :: ClaimsOf(workers[c], Id(c), members, nextId)
  }

  ghost predicate ClaimsOf(l: Local, i: nat, members: Members, nextId: nat) {
    forall m <- Claims(l) :: m < nextId && (m in members ==> members[m].instance == i)
  }

  ghost predicate Covered(s: State) {
    AttemptsCover(s) && CleanupsCovered(s) && ClaimsOwn(s.workers, s.members, s.core.nextId)
  }

  // ---------- when taking members is harmless ----------

  ghost predicate PendingCarried(members: Members, i: nat, policy: Policy) {
    forall m <- members | members[m].instance == i && members[m].status == Pending :: Carried(members[m], policy)
  }

  ghost predicate PendingClaimed(members: Members, i: nat, claimed: set<nat>) {
    forall m <- members | members[m].instance == i && members[m].status == Pending :: m in claimed
  }

  /** What the attempt needs of the members that are pending: at the policy, that it or an accepted policy
      of the job carries them; during the cleanup, that it has claimed them. */
  ghost predicate Admits(s: State, c: Claim)
    requires c in s.workers
  {
    match s.workers[c]
    case PolicyRead(_, policy) => PendingCarried(s.members, Id(c), policy + Known(s.log, c.job))
    case PolicyAccepted(_, _) => PendingCarried(s.members, Id(c), Known(s.log, c.job))
    case CleanupRead(claimed, _, _) => PendingClaimed(s.members, Id(c), claimed)
    case CleanupDone(claimed, _) => PendingClaimed(s.members, Id(c), claimed)
    case _ => true
  }

  /** What a row at the cleanup step needs of them, whether or not an attempt is on its way. */
  ghost predicate RowAdmits(s: State, i: nat) {
    AtCleanup(s, i) ==> PendingCarried(s.members, i, Known(s.log, s.core.life[InstanceRow(i)].job.value))
  }

  ghost predicate Harmless(s: State, i: nat) {
    RowAdmits(s, i) && forall c <- s.workers | Owned(s.core, c) && Id(c) == i :: Admits(s, c)
  }

  /** The worker is about to take the members for an update. */
  predicate Takes(s: State, d: Claim) {
    At(s, d, Step.UpdateInstance) && s.workers[d] == Started && Id(d) in s.instances
  }

  /** The hypothesis on taking members. */
  ghost predicate Careful(s: State, d: Claim) {
    Takes(s, d) ==> Harmless(s, Id(d))
  }

  // ---------- how the members of one instance move ----------

  /** The members still to be settled were so before, with the same name, role and action. */
  ghost predicate Shrinks(members: Members, members': Members, i: nat) {
    forall m <- members' | members'[m].instance == i && Reconcilable(members'[m]) ::
      m in members && Reconcilable(members[m]) && members[m] == members'[m].(status := members[m].status)
  }

  ghost predicate Frozen(members: Members, members': Members, i: nat) {
    forall m <- members' | members'[m].instance == i :: m in members && members[m] == members'[m]
  }

  lemma ShrinkCovers(members: Members, members': Members, i: nat, policy: Policy, policy': Policy)
    requires Shrinks(members, members', i) && Covers(members, i, policy) && policy <= policy'
    ensures Covers(members', i, policy')
  {}

  lemma KnownGrows(log: seq<Fact>, log': seq<Fact>, job: nat)
    requires LogKept(log, log')
    ensures Known(log, job) <= Known(log', job)
  {}

  lemma KnownHas(log: seq<Fact>, job: nat, policy: Policy)
    requires AcceptedPolicy(job, policy) in log
    ensures policy <= Known(log, job)
  {
    forall entry | entry in policy ensures entry in Known(log, job) {
      assert AcceptedPolicy(job, policy).policy == policy;
    }
  }

  /** Taking members for an update. */
  lemma ClaimShrinks(members: Members, i: nat, j: nat)
    ensures var members' := U.SetStatus(members, U.Unsettled(members, i), Running);
            j != i ==> Frozen(members, members', j) && Frozen(members', members, j)
  {}

  lemma CleanupShrinks(members: Members, i: nat, j: nat)
    ensures var members' := U.SetStatus(members, U.Reconciled(members, i), Running);
            (j != i ==> Frozen(members, members', j)) && Shrinks(members, members', j)
  {}

  lemma HoldShrinks(members: Members, claimed: set<nat>, status: Status, i: nat, j: nat)
    requires status == Pending || status == Error
    requires forall m <- claimed :: m in members ==> members[m].instance == i
    ensures var members' := U.SetStatus(members, U.Held(members, claimed), status);
            (j != i ==> Frozen(members, members', j)) && Shrinks(members, members', j)
  {}

  /** When everything to be settled is already claimed, a stale worker changes nothing. */
  lemma ClaimedIsFrozen(members: Members, i: nat, claimed: set<nat>)
    requires AllClaimed(members, i, claimed)
    ensures Frozen(members, U.SetStatus(members, U.Reconciled(members, i), Running), i)
  {}

  /** Every transaction of a step, seen from one instance. */
  lemma StepShrinks(s: State, s': State, d: Claim, j: nat)
    requires MembersTouched(s, s', d) && ClaimsOwn(s.workers, s.members, s.core.nextId)
    requires s'.members != s.members && d.step == Step.UpdateInstance ==> Owned(s.core, d)
    ensures j != Id(d) ==> Frozen(s.members, s'.members, j)
    ensures !(Owned(s.core, d) && d.step == Step.UpdateInstance) ==> Shrinks(s.members, s'.members, j)
    ensures d in s.workers && !s.workers[d].Started? ==> Shrinks(s.members, s'.members, j)
  {
    hide Owned, Id, DeferExecution, FailExecution, Frozen, Shrinks, U.PendingMember, U.SetStatus, U.Unsettled, U.Reconciled, U.Held;
    if s'.members == s.members {
      SameShrinks(s.members, j);
    } else {
      ClaimShrinks(s.members, Id(d), j);
      CleanupShrinks(s.members, Id(d), j);
      FrozenIsShrinking(s.members, s'.members, j);
      if d in s.workers {
        HoldShrinks(s.members, U.Claimed(s.workers[d]), Pending, Id(d), j);
        HoldShrinks(s.members, U.Claimed(s.workers[d]), Error, Id(d), j);
      }
    }
  }

  lemma SameShrinks(members: Members, j: nat)
    ensures Frozen(members, members, j) && Shrinks(members, members, j)
  {}

  lemma FrozenIsShrinking(members: Members, members': Members, j: nat)
    ensures Frozen(members, members', j) ==> Shrinks(members, members', j)
  {}

  // ---------- the attempts ----------

  ghost predicate LogKept(log: seq<Fact>, log': seq<Fact>) {
    forall fact :: fact in log ==> fact in log'
  }

  lemma MovedLogKept(s: State, s': State, c: Claim)
    requires LogMoves(s, s', c)
    ensures LogKept(s.log, s'.log)
  {
    hide Backed;
  }

  /** The local and the members of one attempt's instance are as they were, or fewer. */
  lemma AttemptStays(s: State, s': State, c: Claim)
    requires c in s.workers && c in s'.workers && s'.workers[c] == s.workers[c] && AttemptCovers(s, c) && LogKept(s.log, s'.log)
    requires Shrinks(s.members, s'.members, Id(c))
    requires s.workers[c].CleanupRead? || s.workers[c].CleanupDone? ==> Frozen(s.members, s'.members, Id(c))
    ensures AttemptCovers(s', c)
  {
    KnownGrows(s.log, s'.log, c.job);
    hide Id, Reconcilable, Known, LogKept, Covers;
    match s.workers[c]
    case PolicyRead(_, policy) => ShrinkCovers(s.members, s'.members, Id(c), policy + Known(s.log, c.job), policy + Known(s'.log, c.job));
    case PolicyAccepted(_, _) => ShrinkCovers(s.members, s'.members, Id(c), Known(s.log, c.job), Known(s'.log, c.job));
    case CleanupRead(_, _, _) =>
    case CleanupDone(_, _) =>
    case _ =>
  }

  predicate Concerned(step: Step) {
    step == Step.UpdateInstance || step == Step.StartInstance || step == CleanupUsers
  }

  /** Two current attempts never work on the same instance. */
  lemma OtherInstance(s: State, c: Claim, d: Claim)
    requires Sound(s) && c in s.workers && d in s.workers && c != d && Owned(s.core, c) && Owned(s.core, d)
    requires OnInstance(c.step) && OnInstance(d.step)
    ensures Id(c) != Id(d)
  {
    OwnedIsBusy(s.core, c);
    OwnedIsBusy(s.core, d);
    if c.resource == d.resource { OneOwner(s.core, c, d); }
    hide Sound, Owned, Id;
  }

  lemma ForeignFrozen(s: State, s': State, c: Claim, d: Claim)
    requires d in s.workers && c in s.workers && MembersTouched(s, s', d) && Id(c) == Id(d) && !Owned(s.core, d)
    requires s'.members != s.members && d.step == Step.UpdateInstance ==> Owned(s.core, d)
    requires AttemptCovers(s, c) && (s.workers[c].CleanupRead? || s.workers[c].CleanupDone?)
    ensures Frozen(s.members, s'.members, Id(c))
  {
    var claimed := Claims(s.workers[c]);
    assert AllClaimed(s.members, Id(c), claimed);
    ClaimedIsFrozen(s.members, Id(c), claimed);
    SameShrinks(s.members, Id(c));
    hide Owned, Id, U.SetStatus, U.Unsettled, U.Reconciled, Frozen, U.PendingMember, AllClaimed, AttemptCovers;
  }

  lemma ForeignAttemptStays(s: State, s': State, c: Claim, d: Claim)
    requires Sound(s) && c in s.workers && d in s.workers && c != d && Owned(s.core, c) && Concerned(c.step)
    requires Plain(s, s', d) && ClaimsOwn(s.workers, s.members, s.core.nextId) && AttemptCovers(s, c)
    requires s'.members != s.members && d.step == Step.UpdateInstance ==> Owned(s.core, d)
    ensures c in s'.workers && AttemptCovers(s', c)
  {
    assert OnlyWorker(s, s', d) && LogMoves(s, s', d) && MembersTouched(s, s', d);
    MovedLogKept(s, s', d);
    StepShrinks(s, s', d, Id(c));
    FrozenIsShrinking(s.members, s'.members, Id(c));
    if Id(c) == Id(d) && Owned(s.core, d) && s'.members != s.members { OtherInstance(s, c, d); }
    SameShrinks(s.members, Id(c));
    if Id(c) == Id(d) && !Owned(s.core, d) && (s.workers[c].CleanupRead? || s.workers[c].CleanupDone?) { ForeignFrozen(s, s', c, d); }
    hide Sound, Plain, Owned, Id, Frozen, Shrinks, AttemptCovers, MembersTouched, LogMoves, LogKept;
    AttemptStays(s, s', c);
  }

  lemma PutBackIsLost(core: Core, c: Claim)
    requires Owned(core, c)
    ensures !Owned(DeferExecution(core, c), c) && !Owned(FailExecution(core, c), c)
  {}

  /** While an attempt stays current and past its first read, its members are not touched. */
  lemma OwnMembersStay(s: State, s': State, c: Claim)
    requires c in s.workers && MembersTouched(s, s', c) && Owned(s.core, c) && Owned(s'.core, c) && !s.workers[c].Started?
    ensures s'.members == s.members
  {
    PutBackIsLost(s.core, c);
    hide Owned, Id, U.SetStatus, U.Held, U.Claimed, U.Unsettled, U.Reconciled, FailExecution, DeferExecution;
  }

  lemma PolicyCovers(members: Members, i: nat)
    ensures Covers(members, i, U.PolicyOf(members, i))
    ensures Covers(U.SetStatus(members, U.Unsettled(members, i), Running), i, U.PolicyOf(members, i))
  {
    var policy := U.PolicyOf(members, i);
    forall m | m in members && members[m].instance == i ensures Carried(members[m], policy) {}
  }

  lemma MoreCovers(members: Members, i: nat, policy: Policy, more: Policy)
    ensures Covers(members, i, policy) ==> Covers(members, i, policy + more)
  {}

  lemma ReconciledAreClaimed(members: Members, i: nat)
    ensures var claimed := U.Reconciled(members, i);
            var members' := U.SetStatus(members, claimed, Running);
            AllClaimed(members', i, claimed) && AllExpected(members', i, claimed, U.ExpectedNames(members, i, claimed))
  {
    var claimed := U.Reconciled(members, i);
    forall m | m in members && members[m].instance == i && (members[m].action != Deleting || m !in claimed)
      ensures members[m].username in U.ExpectedNames(members, i, claimed) {}
  }

  lemma StartMembersStay(s: State, s': State, c: Claim)
    requires MembersTouched(s, s', c) && c.step == Step.StartInstance
    ensures s'.members == s.members
  {
    hide Owned, Id;
  }

  /** The first read of each step. */
  lemma FreshAttemptCovers(s: State, s': State, c: Claim)
    requires c in s.workers && c in s'.workers && LocalMoves(s, s', c) && MembersTouched(s, s', c)
    requires s'.workers[c] != s.workers[c] && (s'.workers[c].PolicyRead? || s'.workers[c].CleanupRead?)
    ensures AttemptCovers(s', c)
  {
    PolicyCovers(s.members, Id(c));
    MoreCovers(s'.members, Id(c), U.PolicyOf(s.members, Id(c)), Known(s'.log, c.job));
    hide Known;
    ReconciledAreClaimed(s.members, Id(c));
    if c.step == Step.StartInstance { StartMembersStay(s, s', c); }
    hide MembersTouched, Owned, Id, Covers, AllClaimed, AllExpected, U.PolicyOf, U.SetStatus, U.Unsettled, U.Reconciled, U.ExpectedNames;
  }

  /** A later point of a step keeps what the first read established. */
  lemma LaterAttemptCovers(s: State, s': State, c: Claim)
    requires c in s.workers && c in s'.workers && LocalMoves(s, s', c) && s'.members == s.members && AttemptCovers(s, c)
    requires s'.workers[c] != s.workers[c] && !s'.workers[c].PolicyRead? && !s'.workers[c].CleanupRead? && LogKept(s.log, s'.log)
    ensures AttemptCovers(s', c)
  {
    if s.workers[c].PolicyRead? {
      KnownGrows(s.log, s'.log, c.job);
      SameShrinks(s.members, Id(c));
      var policy := s.workers[c].policy;
      if s'.workers[c].PolicyAccepted? {
        KnownHas(s'.log, c.job, policy);
        ShrinkCovers(s.members, s'.members, Id(c), policy + Known(s.log, c.job), Known(s'.log, c.job));
      }
    }
    hide Id, Covers, AllClaimed, AllExpected, Known, LogKept;
  }

  lemma StartedBefore(s: State, s': State, c: Claim)
    requires c in s.workers && c in s'.workers && LocalMoves(s, s', c) && s'.workers[c] != s.workers[c]
    ensures s'.workers[c].PolicyAccepted? || s'.workers[c].CleanupDone? ==> !s.workers[c].Started?
  {
    hide Id;
  }

  lemma OwnAttemptCovers(s: State, s': State, c: Claim)
    requires c in s.workers && c in s'.workers && Plain(s, s', c) && Owned(s.core, c) && Owned(s'.core, c) && AttemptCovers(s, c)
    ensures AttemptCovers(s', c)
  {
    assert LocalMoves(s, s', c) && MembersTouched(s, s', c) && LogMoves(s, s', c);
    MovedLogKept(s, s', c);
    SameShrinks(s.members, Id(c));
    hide Plain, LogMoves;
    if !s.workers[c].Started? { OwnMembersStay(s, s', c); }
    var l' := s'.workers[c];
    if l' == s.workers[c] {
      hide LocalMoves, MembersTouched, Frozen, Shrinks, LogKept;
      if !l'.Started? { hide AttemptCovers; AttemptStays(s, s', c); }
    } else if l'.PolicyRead? || l'.CleanupRead? {
      hide AttemptCovers;
      FreshAttemptCovers(s, s', c);
    } else {
      StartedBefore(s, s', c);
      if !s.workers[c].Started? {
        hide AttemptCovers;
        LaterAttemptCovers(s, s', c);
      }
    }
  }

  lemma PlainKeepsAttempts(s: State, s': State, d: Claim)
    requires Sound(s) && LocalsFit(s.workers) && d in s.workers && Plain(s, s', d)
    requires AttemptsCover(s) && ClaimsOwn(s.workers, s.members, s.core.nextId)
    requires s'.members != s.members && d.step == Step.UpdateInstance ==> Owned(s.core, d)
    ensures AttemptsCover(s')
  {
    PlainFenced(s, s', d);
    assert OnlyWorker(s, s', d) && Protocol.Evolves(s.core, s'.core);
    forall c | c in s'.workers && Owned(s'.core, c) ensures AttemptCovers(s', c) {
      assert c in s.workers;
      Runs.OwnershipIsNotRegained(s.core, s'.core, c);
      assert AttemptCovers(s, c) && Fits(c.step, s.workers[c]);
      hide Sound, Plain, Owned, Fenced, Protocol.Evolves, ClaimsOwn, AttemptsCover, LocalsFit;
      if c == d { hide AttemptCovers; OwnAttemptCovers(s, s', c); }
      else if Concerned(c.step) { hide AttemptCovers; ForeignAttemptStays(s, s', c, d); }
    }
  }

  // ---------- the cleanup step of each instance ----------

  lemma SameRowStaysCovered(s: State, s': State, i: nat)
    requires CleanupCovered(s, i) && Shrinks(s.members, s'.members, i) && LogKept(s.log, s'.log)
    requires InstanceRow(i) in s'.core.life ==> InstanceRow(i) in s.core.life
    requires InstanceRow(i) in s'.core.life ==> s'.core.life[InstanceRow(i)].step == s.core.life[InstanceRow(i)].step
    requires InstanceRow(i) in s'.core.life ==> s'.core.life[InstanceRow(i)].job == s.core.life[InstanceRow(i)].job
    ensures CleanupCovered(s', i)
  {
    if AtCleanup(s', i) {
      var job := s.core.life[InstanceRow(i)].job.value;
      KnownGrows(s.log, s'.log, job);
      ShrinkCovers(s.members, s'.members, i, Known(s.log, job), Known(s'.log, job));
      hide Covers, Shrinks, Known;
    }
  }

  lemma GateToCleanup(s: State, s': State, c: Claim, name: JobName, row: Life, row': Life)
    requires c in s.workers && c.job in s.core.jobs && s.core.jobs[c.job].name == name && InWorkflow(name, c.step) && RowMoves(s, s', c, row, row')
    requires row.step == Some(c.step) && c.step != CleanupUsers && row'.step == Some(CleanupUsers)
    ensures s.workers[c].PolicyAccepted? && row'.job == row.job
  {}

  /** An instance reaches its cleanup step only through the gate of the policy steps. */
  lemma ReachesCleanup(s: State, s': State, c: Claim, i: nat)
    requires Sound(s) && c in s.workers && LifeMoves(s, s', c)
    requires InstanceRow(i) in s'.core.life && InstanceRow(i) in s.core.life
    requires s'.core.life[InstanceRow(i)].step == Some(CleanupUsers) && s.core.life[InstanceRow(i)].step != Some(CleanupUsers)
    ensures Owned(s.core, c) && i == Id(c) && s.workers[c].PolicyAccepted?
    ensures s'.core.life[InstanceRow(i)].job == Some(c.job)
  {
    assert Owned(s.core, c);
    OwnedResource(s.core, c);
    var k := InstanceRow(i);
    assert c.resource == Some(k) && RowMoves(s, s', c, s.core.life[k], s'.core.life[k]);
    var name := s.core.jobs[c.job].name;
    hide Sound, Owned, Id, RowMoves, InWorkflow, LifeMoves, ActionOf;
    GateToCleanup(s, s', c, name, s.core.life[k], s'.core.life[k]);
  }

  lemma UnchangedStep(s: State, s': State, c: Claim, k: Resource)
    requires Sound(s) && c in s.workers && LifeMoves(s, s', c) && k in s'.core.life && k in s.core.life
    requires s'.core.life[k].step == Some(CleanupUsers) && s.core.life[k].step == Some(CleanupUsers)
    ensures s'.core.life[k].job == s.core.life[k].job
  {
    hide Sound, Owned, Gate;
  }

  lemma OwnStepOf(s: State, c: Claim)
    requires Sound(s) && c in s.workers && Owned(s.core, c) && OnInstance(c.step)
    ensures InstanceRow(Id(c)) in s.core.life && s.core.life[InstanceRow(Id(c))].step == Some(c.step)
  {
    OwnedResource(s.core, c);
    hide Protocol.Inv, Owned, Id;
  }

  lemma PlainKeepsCleanup(s: State, s': State, d: Claim, i: nat)
    requires Sound(s) && d in s.workers && LifeMoves(s, s', d) && SameKeys(s.core.life, s'.core.life)
    requires MembersTouched(s, s', d) && LogKept(s.log, s'.log)
    requires CleanupCovered(s, i) && ClaimsOwn(s.workers, s.members, s.core.nextId)
    requires Owned(s.core, d) ==> AttemptCovers(s, d)
    requires s'.members != s.members && d.step == Step.UpdateInstance ==> Owned(s.core, d)
    ensures CleanupCovered(s', i)
  {
    var k := InstanceRow(i);
    if k in s'.core.life && s'.core.life[k].step == Some(CleanupUsers) {
      StepShrinks(s, s', d, i);
      FrozenIsShrinking(s.members, s'.members, i);
      if s.core.life[k].step == Some(CleanupUsers) {
        if Owned(s.core, d) && d.step == Step.UpdateInstance { OwnStepOf(s, d); }
        UnchangedStep(s, s', d, k);
        hide Sound, LifeMoves, MembersTouched, Owned, Id, Shrinks, Frozen, CleanupCovered, AttemptCovers, LogKept, ClaimsOwn;
        SameRowStaysCovered(s, s', i);
      } else {
        ReachesCleanup(s, s', d, i);
        assert Covers(s.members, i, Known(s.log, d.job));
        KnownGrows(s.log, s'.log, d.job);
        ShrinkCovers(s.members, s'.members, i, Known(s.log, d.job), Known(s'.log, d.job));
        hide Sound, LifeMoves, MembersTouched, Owned, Id, Shrinks, Frozen, AttemptCovers, ClaimsOwn, Covers, Known;
      }
    }
  }

  /** Identifiers are never reused, and members keep their instance. */
  ghost predicate MembersFollow(members: Members, members': Members, nextId: nat, nextId': nat) {
    && nextId <= nextId'
    && (forall m <- members' :: if m in members then members'[m].instance == members[m].instance else m >= nextId)
  }

  lemma ClaimsFollow(l: Local, i: nat, members: Members, members': Members, nextId: nat, nextId': nat)
    requires ClaimsOf(l, i, members, nextId) && MembersFollow(members, members', nextId, nextId')
    ensures ClaimsOf(l, i, members', nextId')
  {
    hide Claims;
  }

  lemma PlainKeepsClaims(s: State, s': State, c: Claim)
    requires c in s.workers && OnlyWorker(s, s', c) && LocalMoves(s, s', c) && SameMembers(s.members, s'.members)
    requires (forall m <- s.members :: m < s.core.nextId) && s.core.nextId <= s'.core.nextId
    requires ClaimsOwn(s.workers, s.members, s.core.nextId)
    ensures ClaimsOwn(s'.workers, s'.members, s'.core.nextId)
  {
    ClaimsReached(s, s', c);
    assert MembersFollow(s.members, s'.members, s.core.nextId, s'.core.nextId);
    forall d | d in s'.workers ensures ClaimsOf(s'.workers[d], Id(d), s'.members, s'.core.nextId) {
      assert ClaimsOf(s.workers[d], Id(d), s.members, s.core.nextId);
      assert ClaimsOf(s'.workers[d], Id(d), s.members, s.core.nextId) by { hide LocalMoves, Id, Claims, SameMembers; }
      hide ClaimsOf, MembersFollow, LocalMoves, Id, Claims, SameMembers, OnlyWorker;
      ClaimsFollow(s'.workers[d], Id(d), s.members, s'.members, s.core.nextId, s'.core.nextId);
    }
  }

  lemma ClaimsReached(s: State, s': State, c: Claim)
    requires c in s.workers && c in s'.workers && LocalMoves(s, s', c)
    ensures forall m <- Claims(s'.workers[c]) :: m in Claims(s.workers[c]) || (m in s.members && s.members[m].instance == Id(c))
  {
    hide Id, U.SetStatus, U.PolicyOf, U.ExpectedNames;
  }

  lemma PlainKeepsCoverage(s: State, s': State, d: Claim)
    requires Sound(s) && Keyed(s) && LocalsFit(s.workers) && d in s.workers && Plain(s, s', d) && Covered(s)
    requires s'.members != s.members && d.step == Step.UpdateInstance ==> Owned(s.core, d)
    ensures Covered(s')
  {
    PlainFenced(s, s', d);
    StepMovesLife(s, s', d);
    PlainSameRows(s, s', d);
    assert OnlyWorker(s, s', d) && LocalMoves(s, s', d) && MembersTouched(s, s', d) && LogMoves(s, s', d);
    assert s.core.nextId <= s'.core.nextId && SameKeys(s.core.life, s'.core.life) && SameMembers(s.members, s'.members);
    MovedLogKept(s, s', d);
    assert forall m <- s.members :: m < s.core.nextId;
    hide Plain, Fenced, LifeMoves, SameRows, Owned, LogMoves, LogKept, MembersTouched, LocalMoves, SameKeys, SameMembers, OnlyWorker;
    hide ClaimsOwn, Keyed, LocalsFit, CleanupCovered, AttemptCovers, Sound;
    PlainKeepsAttempts(s, s', d);
    forall i ensures CleanupCovered(s', i) { PlainKeepsCleanup(s, s', d, i); }
    PlainKeepsClaims(s, s', d);
  }

  // ---------- other events ----------

  /** No member becomes one to be settled, except under a new identifier or by being taken. */
  ghost predicate MembersQuiet(s: State, s': State) {
    && (forall i :: Shrinks(s.members, s'.members, i))
    && MembersFollow(s.members, s'.members, s.core.nextId, s.core.nextId)
  }

  /** An instance's row keeps its step and job or is not at the cleanup step. */
  ghost predicate CleanupsQuiet(life: map<Resource, Life>, life': map<Resource, Life>) {
    forall i: nat :: InstanceRow(i) in life' ==>
      || life'[InstanceRow(i)].step != Some(CleanupUsers)
      || (InstanceRow(i) in life && life'[InstanceRow(i)].step == life[InstanceRow(i)].step
          && life'[InstanceRow(i)].job == life[InstanceRow(i)].job)
  }

  lemma QuietCleanup(s: State, s': State, i: nat)
    requires CleanupsQuiet(s.core.life, s'.core.life) && Shrinks(s.members, s'.members, i) && LogKept(s.log, s'.log)
    requires CleanupCovered(s, i)
    ensures CleanupCovered(s', i)
  {
    if InstanceRow(i) in s'.core.life && s'.core.life[InstanceRow(i)].step == Some(CleanupUsers) {
      hide Shrinks, LogKept, CleanupCovered;
      SameRowStaysCovered(s, s', i);
    }
  }

  lemma QuietClaims(s: State, s': State)
    requires forall c <- s'.workers :: if c in s.workers then s'.workers[c] == s.workers[c] else s'.workers[c].Started?
    requires MembersFollow(s.members, s'.members, s.core.nextId, s'.core.nextId) && ClaimsOwn(s.workers, s.members, s.core.nextId)
    ensures ClaimsOwn(s'.workers, s'.members, s'.core.nextId)
  {
    forall c | c in s'.workers ensures ClaimsOf(s'.workers[c], Id(c), s'.members, s'.core.nextId) {
      if c in s.workers {
        hide ClaimsOf, MembersFollow, Id;
        ClaimsFollow(s.workers[c], Id(c), s.members, s'.members, s.core.nextId, s'.core.nextId);
      }
    }
  }

  lemma QuietAttempts(s: State, s': State)
    requires Sound(s) && Sound(s') && Protocol.Evolves(s.core, s'.core) && AttemptsCover(s)
    requires forall c <- s'.workers :: if c in s.workers then s'.workers[c] == s.workers[c] else s'.workers[c].Started?
    requires LogKept(s.log, s'.log) && forall i :: Shrinks(s.members, s'.members, i)
    requires forall c <- s.workers | Owned(s.core, c) && Owned(s'.core, c) && (s.workers[c].CleanupRead? || s.workers[c].CleanupDone?) ::
               Frozen(s.members, s'.members, Id(c))
    ensures AttemptsCover(s')
  {
    forall c | c in s'.workers && Owned(s'.core, c) ensures AttemptCovers(s', c) {
      hide LogKept, AttemptCovers, Shrinks, Frozen, Owned, Id, Protocol.Inv, Protocol.Evolves;
      if c in s.workers {
        Runs.OwnershipIsNotRegained(s.core, s'.core, c);
        AttemptStays(s, s', c);
      } else {
        StartedCovers(s', c);
      }
    }
  }

  lemma QuietCleanups(s: State, s': State)
    requires CleanupsQuiet(s.core.life, s'.core.life) && LogKept(s.log, s'.log) && forall i :: Shrinks(s.members, s'.members, i)
    requires CleanupsCovered(s)
    ensures CleanupsCovered(s')
  {
    forall i ensures CleanupCovered(s', i) {
      assert CleanupCovered(s, i);
      hide CleanupCovered, CleanupsQuiet, LogKept, Shrinks;
      QuietCleanup(s, s', i);
    }
  }

  lemma QuietKeepsCoverage(s: State, s': State)
    requires Sound(s) && Sound(s') && Protocol.Evolves(s.core, s'.core) && Covered(s)
    requires forall c <- s'.workers :: if c in s.workers then s'.workers[c] == s.workers[c] else s'.workers[c].Started?
    requires LogKept(s.log, s'.log) && MembersQuiet(s, s') && CleanupsQuiet(s.core.life, s'.core.life)
    requires forall c <- s.workers | Owned(s.core, c) && Owned(s'.core, c) && (s.workers[c].CleanupRead? || s.workers[c].CleanupDone?) ::
               Frozen(s.members, s'.members, Id(c))
    ensures Covered(s')
  {
    assert s.core.nextId <= s'.core.nextId;
    hide LogKept, CleanupsQuiet, CleanupsCovered, AttemptsCover, ClaimsOwn, Shrinks, Frozen, Owned, Id, Sound, Protocol.Evolves;
    QuietAttempts(s, s');
    QuietCleanups(s, s');
    assert MembersFollow(s.members, s'.members, s.core.nextId, s'.core.nextId);
    QuietClaims(s, s');
  }

  lemma StartedCovers(s: State, c: Claim)
    requires c in s.workers && s.workers[c].Started?
    ensures AttemptCovers(s, c)
  {}

  lemma SameMembersQuiet(s: State, s': State)
    requires s'.members == s.members
    ensures MembersQuiet(s, s') && forall i :: Frozen(s.members, s'.members, i)
  {}

  lemma RedeliveryKeepsCoverage(s: State, s': State)
    requires Sound(s) && Redelivers(s, s') && Covered(s)
    ensures Covered(s')
  {
    assert CleanupsQuiet(s.core.life, s'.core.life) by { assert StatusesMove(s.core.life, s'.core.life); }
    assert LogKept(s.log, s'.log) && Protocol.Evolves(s.core, s'.core);
    SameMembersQuiet(s, s');
    hide CoreRedelivers, Begins, Covered, CleanupsQuiet, LogKept, MembersQuiet, Frozen, Owned, Id, Protocol.Evolves;
    assert Sound(s') by { RedeliveredSound(s, s'); }
    hide Sound;
    QuietKeepsCoverage(s, s');
  }

  lemma RedeliveredSound(s: State, s': State)
    requires Redelivers(s, s')
    ensures Sound(s')
  {}

  lemma CalmCleanups(core: Core, core': Core, k: Option<Resource>)
    requires Calm(core, core', k)
    requires k.Some? && k.value.InstanceRow? && k.value in core'.life ==> core'.life[k.value].step != Some(CleanupUsers)
    ensures CleanupsQuiet(core.life, core'.life)
  {
    hide Busy;
  }

  /** The transactions that delete rows, except the end of an update. */
  lemma DeletionKeepsCoverage(s: State, s': State, d: Claim, ms: set<nat>)
    requires Sound(s) && d in s.workers && WorkFenced(s, s', d) && Covered(s)
    requires s'.workers == s.workers && s'.log == s.log && s'.members == s.members - ms
    requires d.resource.Some? && d.resource.value.InstanceRow? ==> d.resource.value !in s'.core.life
    ensures Covered(s')
  {
    assert Calm(s.core, s'.core, d.resource) && Sound(s') && Protocol.Evolves(s.core, s'.core);
    hide Fenced, OnlyWorker, Protocol.Inv, Protocol.Evolves, Covered, Calm, Owned, Id;
    CalmCleanups(s.core, s'.core, d.resource);
    FewerMembersQuiet(s, s', ms);
    hide Sound, CleanupsQuiet, MembersQuiet, Frozen;
    QuietKeepsCoverage(s, s');
  }

  lemma FewerMembersQuiet(s: State, s': State, ms: set<nat>)
    requires s'.members == s.members - ms
    ensures MembersQuiet(s, s') && forall i :: Frozen(s.members, s'.members, i)
  {}

  lemma RemoveLocalKeepsCoverage(s: State, d: Claim)
    requires Sound(s) && d in s.workers && Covered(s)
    ensures Covered(D.RemoveLocal(s, d))
  {
    var s' := D.RemoveLocal(s, d);
    if s' != s {
      RemoveLocalFenced(s, d);
      RemoveLocalErases(s, d);
      RemoveLocalMoves(s, d);
      DeletionOrder.InstanceRowGone(s, s', d, D.AssignmentsOf(s, Id(d)), D.WorkspacesOf(s, Id(d)));
      hide D.RemoveLocal, D.AssignmentsOf, D.WorkspacesOf, D.MembersOf, Sound, Covered, Owned, WorkFenced, Erases, Id, DeleteRows, CompleteAndDelete;
      DeletionKeepsCoverage(s, s', d, D.MembersOf(s, Id(d)));
    }
  }

  lemma NobodyLeaves(members: Members)
    ensures members - {} == members
  {}

  lemma RemoveAssignmentKeepsCoverage(s: State, d: Claim)
    requires Sound(s) && d in s.workers && Covered(s)
    ensures Covered(T.RemoveAssignment(s, d))
  {
    var s' := T.RemoveAssignment(s, d);
    if s' != s {
      RemoveAssignmentFenced(s, d);
      RemoveAssignmentErases(s, d);
      RemoveAssignmentMoves(s, d);
      hide T.RemoveAssignment, T.PairWorkspaces, Sound, Covered, Owned, WorkFenced, Erases, Id, DeleteRows, CompleteAndDelete;
      NobodyLeaves(s.members);
      DeletionKeepsCoverage(s, s', d, {});
    }
  }

  lemma FinishDeleteWorkspaceKeepsCoverage(s: State, d: Claim)
    requires Sound(s) && d in s.workers && Covered(s)
    ensures Covered(W.FinishDeleteWorkspace(s, d))
  {
    var s' := W.FinishDeleteWorkspace(s, d);
    if s' != s {
      FinishDeleteWorkspaceFenced(s, d);
      FinishDeleteWorkspaceErases(s, d);
      FinishDeleteWorkspaceMoves(s, d);
      hide W.FinishDeleteWorkspace, Sound, Covered, Owned, WorkFenced, Erases, Id, DeleteRows, CompleteAndDelete;
      NobodyLeaves(s.members);
      DeletionKeepsCoverage(s, s', d, {});
    }
  }

  lemma SettledQuiet(s: State, s': State, i: nat, claimed: set<nat>)
    requires s'.members == U.Settle(s.members, i, claimed)
    ensures MembersQuiet(s, s') && forall j :: j != i ==> Frozen(s.members, s'.members, j)
  {}

  lemma FinalizeCleanups(s: State, d: Claim)
    requires Sound(s) && d in s.workers && U.FinalizeUpdate(s, d) != s
    ensures CleanupsQuiet(s.core.life, U.FinalizeUpdate(s, d).core.life)
  {
    FinalizeFenced(s, d);
    FinalizeLife(s, d);
    var s' := U.FinalizeUpdate(s, d);
    assert Calm(s.core, s'.core, d.resource);
    hide U.FinalizeUpdate, Sound, Fenced, OnlyWorker, Owned, Id, U.Orphans, U.Settle, WorkerSteps.WorkspaceRows, CleanupsQuiet, Calm;
    CalmCleanups(s.core, s'.core, d.resource);
  }

  lemma FinalizeKeepsCoverage(s: State, d: Claim)
    requires Sound(s) && LocalsFit(s.workers) && d in s.workers && Covered(s)
    ensures Covered(U.FinalizeUpdate(s, d))
  {
    var s' := U.FinalizeUpdate(s, d);
    if s' != s {
      FinalizeFenced(s, d);
      FinalizeMoves(s, d);
      FinalizeErases(s, d);
      TemplatesKept(s, d);
      DeletionOrder.FinalizeKeepsLog(s, d);
      assert Sound(s') && Protocol.Evolves(s.core, s'.core) && Owned(s.core, d) && d.step == CleanupUsers;
      hide U.FinalizeUpdate, Sound, Fenced, OnlyWorker, WorkFenced, Owned, Erases, U.Orphans, U.Settle, Departed, Covered, Protocol.Evolves;
      hide DeleteRows, CompleteExecution, RequestJob;
      FinalizeCleanups(s, d);
      SettledQuiet(s, s', Id(d), s.workers[d].claimed);
      hide CleanupsQuiet, MembersQuiet, Frozen, Id;
      forall c | c in s.workers && Owned(s.core, c) && Owned(s'.core, c) && (s.workers[c].CleanupRead? || s.workers[c].CleanupDone?)
        ensures Frozen(s.members, s'.members, Id(c))
      {
        assert Fits(c.step, s.workers[c]);
        if c == d { FinalizedIsLost(s, d); } else { OtherInstance(s, c, d); }
      }
      QuietKeepsCoverage(s, s');
    }
  }

  /** The end of an update ends the attempt. */
  lemma FinalizedIsLost(s: State, d: Claim)
    requires Sound(s) && d in s.workers && U.FinalizeUpdate(s, d) != s
    ensures !Owned(U.FinalizeUpdate(s, d).core, d)
  {
    FinalizeFenced(s, d);
    FinalizeLife(s, d);
    var s' := U.FinalizeUpdate(s, d);
    if Owned(s'.core, d) {
      hide U.FinalizeUpdate, Owned, Id, U.Orphans, U.Settle, WorkerSteps.WorkspaceRows;
      assert d in s'.core.claims;
      OwnedRow(s'.core, d);
    }
  }

  // ---------- requests ----------

  /** How a request moves the members of the instance it names, and of nobody else. */
  ghost predicate MembersAsked(s: State, s': State, i: nat) {
    && MembersQuiet(s, s') && (forall j :: j != i ==> Frozen(s.members, s'.members, j))
    && (s'.members != s.members && InstanceRow(i) in s.core.life ==>
          s.core.life[InstanceRow(i)].status != Running || s.core.life[InstanceRow(i)].step == Some(Step.UpdateInstance))
  }

  lemma SameMembersAsked(s: State, s': State, i: nat)
    requires s'.members == s.members
    ensures MembersAsked(s, s', i)
  {}

  lemma SyncInstanceMembers(s: State, i: nat)
    ensures MembersAsked(s, IR.RequestSync(s, i).0, i)
  {
    hide IR.HasActiveAssignment, RequestJob;
  }

  /** One member is written, as pending. */
  lemma PendingMemberAsked(s: State, s': State, i: nat, m: nat)
    requires IR.MemberRefusal(s, i).None? && m in s'.members && s'.members == s.members[m := s'.members[m]]
    requires s'.members[m].status == Pending && s'.members[m].instance == i
    requires if m in s.members then s.members[m].instance == i else m >= s.core.nextId
    ensures MembersAsked(s, s', i)
  {
    hide IR.HasActiveAssignment;
  }

  lemma AddMemberMembers(s: State, i: nat, username: string, role: Role)
    requires s.core.nextId !in s.members
    ensures MembersAsked(s, IR.CreateMember(s, i, username, role).0, i)
  {
    hide IR.MemberRefusal, IR.UsernameTaken, IR.StageUpdate, IR.StagedJob, MembersAsked;
    SameMembersAsked(s, s, i);
    if IR.MemberRefusal(s, i).None? && !IR.UsernameTaken(s.members, i, username) {
      PendingMemberAsked(s, IR.CreateMember(s, i, username, role).0, i, s.core.nextId);
    }
  }

  lemma SetRoleMembers(s: State, i: nat, m: nat, role: Role)
    ensures MembersAsked(s, IR.UpdateRole(s, i, m, role).0, i)
  {
    hide IR.MemberRefusal, IR.StageUpdate, IR.StagedJob, MembersAsked;
    var s' := IR.UpdateRole(s, i, m, role).0;
    if s'.members == s.members { SameMembersAsked(s, s', i); } else { PendingMemberAsked(s, s', i, m); }
  }

  lemma DropMemberMembers(s: State, i: nat, m: nat, protected: set<string>)
    ensures MembersAsked(s, IR.DeleteMember(s, i, m, protected).0, i)
  {
    DropMemberWrites(s, i, m, protected);
    hide IR.MemberRefusal, IR.DeleteMember, MembersAsked;
    var (s', reply) := IR.DeleteMember(s, i, m, protected);
    if reply.Refused? { SameMembersAsked(s, s', i); } else { PendingMemberAsked(s, s', i, m); }
  }

  lemma DropMemberWrites(s: State, i: nat, m: nat, protected: set<string>)
    ensures var (s', reply) := IR.DeleteMember(s, i, m, protected);
            if reply.Refused? then s' == s
            else && IR.MemberRefusal(s, i).None? && m in s.members && s.members[m].instance == i
                 && s'.members == s.members[m := s.members[m].(action := Deleting, status := Pending)]
  {
    hide IR.MemberRefusal, IR.StageUpdate, IR.StagedJob, IR.OwnsWorkspaces;
  }

  lemma InstanceRequestMembers(s: State, r: InstanceRequest)
    requires s.core.nextId !in s.members
    ensures MembersAsked(s, AnswerInstance(s, r).0, InstanceOf(s, r))
  {
    hide MembersAsked, IR.HasActiveAssignment, IR.RetryFailedMembers, RequestJob, IR.RequestSync;
    hide IR.CreateMember, IR.UpdateRole, IR.DeleteMember;
    match r
    case SyncInstance(i) => SyncInstanceMembers(s, i);
    case AddMember(i, username, role) => AddMemberMembers(s, i, username, role);
    case SetRole(i, m, role) => SetRoleMembers(s, i, m, role);
    case DropMember(i, m, protected) => DropMemberMembers(s, i, m, protected);
    case _ => SameMembersAsked(s, AnswerInstance(s, r).0, InstanceOf(s, r));
  }

  /** A newly staged job is at an entry step, and so is its row. */
  lemma RestagedRow(core: Core, core': Core, k: Resource)
    requires Asked(core, core', Some(k)) && DeletionOrder.Restaged(core, core', k) && k in core'.life
    ensures core'.life[k].step != Some(CleanupUsers) || (k in core.life && core'.life[k] == core.life[k])
  {
    assert Protocol.Agrees(core', k);
    hide Protocol.Inv, Protocol.Evolves;
  }

  lemma AskedCleanups(core: Core, core': Core, k: Option<Resource>)
    requires Asked(core, core', k)
    requires k.Some? && k.value.InstanceRow? ==> DeletionOrder.Restaged(core, core', k.value)
    ensures CleanupsQuiet(core.life, core'.life)
  {
    forall i: nat | InstanceRow(i) in core'.life
      ensures || core'.life[InstanceRow(i)].step != Some(CleanupUsers)
              || (InstanceRow(i) in core.life && core'.life[InstanceRow(i)].step == core.life[InstanceRow(i)].step
                  && core'.life[InstanceRow(i)].job == core.life[InstanceRow(i)].job)
    {
      if k == Some(InstanceRow(i)) { RestagedRow(core, core', InstanceRow(i)); }
      hide Protocol.Inv, Protocol.Evolves, DeletionOrder.Restaged;
    }
  }

  lemma InstanceRequestRestages(s: State, r: InstanceRequest)
    ensures DeletionOrder.Restaged(s.core, AnswerInstance(s, r).0.core, InstanceRow(InstanceOf(s, r)))
  {
    hide AnswerInstance, DeletionOrder.Restaged;
    if r.AddMember? || r.SetRole? || r.DropMember? { DeletionOrder.MemberRequestJob(s, r); } else { DeletionOrder.PowerRequestJob(s, r); }
  }

  lemma InstanceRequestKeepsLog(s: State, r: InstanceRequest)
    ensures LogKept(s.log, AnswerInstance(s, r).0.log)
  {
    hide AnswerInstance;
    Bootstrap.InstanceRequestLogs(s, r);
  }

  lemma CleaningIsFrozen(s: State, s': State, i: nat, c: Claim)
    requires Sound(s) && MembersAsked(s, s', i) && c in s.workers && Owned(s.core, c) && c.step == CleanupUsers
    ensures Frozen(s.members, s'.members, Id(c))
  {
    OwnedResource(s.core, c);
    SameMembersQuiet(s, s);
    assert s'.members == s.members ==> Frozen(s.members, s'.members, Id(c));
    hide Sound, Owned, Id, MembersQuiet, Frozen;
  }

  lemma InstanceRequestKeepsCoverage(s: State, r: InstanceRequest)
    requires Sound(s) && Keyed(s) && LocalsFit(s.workers) && Covered(s)
    ensures Covered(AnswerInstance(s, r).0)
  {
    hide AnswerInstance, Covered, LogKept, CleanupsQuiet, MembersQuiet, Frozen, Owned, Id, Protocol.Evolves, Known;
    var s', i := AnswerInstance(s, r).0, InstanceOf(s, r);
    assert s.core.nextId !in s.instances && s.core.nextId !in s.members;
    InstanceRequestAsks(s, r);
    assert Sound(s') && Protocol.Evolves(s.core, s'.core);
    hide AnswerInstance, Sound, Keyed, Covered, Asked, LogKept, CleanupsQuiet, MembersQuiet, Frozen, Owned, Id, Protocol.Evolves, DeletionOrder.Restaged;
    InstanceRequestMembers(s, r);
    InstanceRequestKeepsLog(s, r);
    InstanceRequestRestages(s, r);
    AskedCleanups(s.core, s'.core, Some(InstanceRow(i)));
    forall c | c in s.workers && Owned(s.core, c) && Owned(s'.core, c) && (s.workers[c].CleanupRead? || s.workers[c].CleanupDone?)
      ensures Frozen(s.members, s'.members, Id(c))
    {
      assert Fits(c.step, s.workers[c]);
      CleaningIsFrozen(s, s', i, c);
    }
    QuietKeepsCoverage(s, s');
  }

  lemma OtherRequestKeepsCoverage(s: State, s': State, k: Option<Resource>)
    requires Sound(s) && Asked(s.core, s'.core, k) && (k.Some? ==> !k.value.InstanceRow?) && Covered(s)
    requires s'.workers == s.workers && s'.members == s.members && s'.log == s.log
    ensures Covered(s')
  {
    assert Sound(s') && Protocol.Evolves(s.core, s'.core) && LogKept(s.log, s'.log);
    hide Sound, Covered, Asked, LogKept, CleanupsQuiet, MembersQuiet, Frozen, Owned, Id, Protocol.Evolves;
    SameMembersQuiet(s, s');
    AskedCleanups(s.core, s'.core, k);
    QuietKeepsCoverage(s, s');
  }

  // ---------- what the invariant gives ----------

  /** Nothing but the end of an update settles a member, and it settles only members whose current
      name and role were in a policy that Argo CD accepted in the same job. */
  lemma SettledWasAccepted(s: State, c: Claim, m: nat)
    requires Sound(s) && Covered(s) && c in s.workers && U.FinalizeUpdate(s, c) != s
    requires m in s.members && m in U.FinalizeUpdate(s, c).members
    requires s.members[m].status != Success && U.FinalizeUpdate(s, c).members[m].status == Success
    ensures exists policy :: AcceptedPolicy(c.job, policy) in s.log && (s.members[m].username, s.members[m].role) in policy
    ensures U.FinalizeUpdate(s, c).members[m] == s.members[m].(status := Success)
  {
    FinalizeMoves(s, c);
    FinalizeErases(s, c);
    OwnedResource(s.core, c);
    assert CleanupCovered(s, Id(c));
    hide Sound, Owned, U.FinalizeUpdate, Covered, Erases, Departed, U.Orphans, Id, DeleteRows, CompleteExecution, RequestJob;
    assert Carried(s.members[m], Known(s.log, c.job));
    var fact :| fact in s.log && fact.AcceptedPolicy? && fact.job == c.job && (s.members[m].username, s.members[m].role) in fact.policy;
    assert fact == AcceptedPolicy(c.job, fact.policy);
  }

  predicate SettledMembers(members: Members, i: nat) {
    forall m <- members :: members[m].instance == i ==> members[m].status == Success
  }

  lemma SettlingSettles(members: Members, i: nat, claimed: set<nat>)
    requires AllClaimed(members, i, claimed) && !U.PendingMember(U.Settle(members, i, claimed), i)
    ensures SettledMembers(U.Settle(members, i, claimed), i)
  {
    var members' := U.Settle(members, i, claimed);
    forall m | m in members' && members'[m].instance == i ensures members'[m].status == Success {
      assert members'[m].status != Pending;
    }
  }

  lemma FinalizeRestages(s: State, c: Claim)
    requires Sound(s) && c in s.workers && U.FinalizeUpdate(s, c) != s
    ensures s.workers[c].CleanupDone? && InstanceRow(Id(c)) in U.FinalizeUpdate(s, c).core.life
    ensures var members := U.Settle(s.members, Id(c), s.workers[c].claimed);
            var row := U.FinalizeUpdate(s, c).core.life[InstanceRow(Id(c))];
            && U.FinalizeUpdate(s, c).members == members
            && (if U.PendingMember(members, Id(c))
                then row == Life(Updating, Pending, Some(s.core.nextId), Some(Step.UpdateInstance))
                else row.status == Success)
  {
    FinalizeLife(s, c);
    var i := Id(c);
    var members := U.Settle(s.members, i, s.workers[c].claimed);
    var done := DeleteRows(CompleteExecution(s.core, c, None), WorkerSteps.WorkspaceRows(U.Orphans(s, members)));
    CompletedLife(s.core, c, WorkerSteps.WorkspaceRows(U.Orphans(s, members)));
    assert done.nextId == s.core.nextId;
    hide Sound, Owned, U.Settle, U.Orphans, Id, DeleteRows, CompleteExecution, U.PendingMember;
  }

  /** An update or start job ends in success only with every member of the instance settled; otherwise
      the same transaction hands the instance to a fresh update job. */
  lemma EndsSettledOrRestaged(s: State, c: Claim)
    requires Sound(s) && Covered(s) && c in s.workers && U.FinalizeUpdate(s, c) != s
    ensures var s', i := U.FinalizeUpdate(s, c), Id(c);
            && InstanceRow(i) in s'.core.life
            && (|| (s'.core.life[InstanceRow(i)].status == Success && SettledMembers(s'.members, i))
                || s'.core.life[InstanceRow(i)] == Life(Updating, Pending, Some(s.core.nextId), Some(Step.UpdateInstance)))
  {
    FinalizeRestages(s, c);
    FinalizeMoves(s, c);
    assert AttemptCovers(s, c);
    hide Sound, Covered, Owned, U.FinalizeUpdate, U.Settle, U.Orphans, Id, DeleteRows, CompleteExecution, RequestJob, U.PendingMember, SettledMembers;
    if !U.PendingMember(U.Settle(s.members, Id(c), s.workers[c].claimed), Id(c)) {
      SettlingSettles(s.members, Id(c), s.workers[c].claimed);
    }
  }

  // ---------- taking the members ----------

  /** Exactly when taking the members keeps every change accounted for, whoever takes them and whatever
      stage the update has reached. */
  lemma TakingCovers(s: State, d: Claim)
    requires Keyed(s) && Covered(s) && Takes(s, d)
    ensures Covered(U.ClaimMembers(s, d)) <==> Harmless(s, Id(d))
  {
    hide U.ClaimMembers, ClaimsOwn, AttemptsCover, CleanupsCovered, RowAdmits, Admits, Takes, Id, Owned, Keyed;
    TakingAttempts(s, d);
    TakingRows(s, d);
    TakingClaims(s, d);
  }

  lemma TakenShape(s: State, d: Claim)
    requires Takes(s, d)
    ensures d in s.workers && s.workers[d] == Started
    ensures var s', i := U.ClaimMembers(s, d), Id(d);
            && s' == s.(members := s'.members, workers := s'.workers)
            && s'.workers == s.workers[d := PolicyRead(U.Unsettled(s.members, i), U.PolicyOf(s.members, i))]
            && s'.members == U.SetStatus(s.members, U.Unsettled(s.members, i), Running)
  {
    hide U.SetStatus, U.Unsettled, U.PolicyOf, Id;
  }

  lemma TakingAttempts(s: State, d: Claim)
    requires AttemptsCover(s) && Takes(s, d)
    ensures AttemptsCover(U.ClaimMembers(s, d)) <==> forall c <- s.workers | Owned(s.core, c) && Id(c) == Id(d) :: Admits(s, c)
  {
    hide U.ClaimMembers, U.SetStatus, U.Unsettled, U.PolicyOf, Takes, Owned, Id, AttemptCovers, Admits;
    TakenShape(s, d);
    var s' := U.ClaimMembers(s, d);
    forall c | c in s.workers && Owned(s.core, c) ensures AttemptCovers(s', c) <==> (Id(c) == Id(d) ==> Admits(s, c)) {
      assert AttemptCovers(s, c);
      if c == d { TakenOwn(s, d); } else { TakenAttempt(s, d, c); }
    }
  }

  /** The attempt that takes the members carries them all. */
  lemma TakenOwn(s: State, d: Claim)
    requires Takes(s, d)
    ensures d in U.ClaimMembers(s, d).workers && AttemptCovers(U.ClaimMembers(s, d), d) && d in s.workers && Admits(s, d)
  {
    TakenShape(s, d);
    PolicyCovers(s.members, Id(d));
    MoreCovers(U.ClaimMembers(s, d).members, Id(d), U.PolicyOf(s.members, Id(d)), Known(s.log, d.job));
    hide U.ClaimMembers, U.SetStatus, U.Unsettled, U.PolicyOf, Id, Known, Covers;
  }

  /** What it does to another attempt. */
  lemma TakenAttempt(s: State, d: Claim, c: Claim)
    requires Takes(s, d) && c in s.workers && c != d && AttemptCovers(s, c)
    ensures c in U.ClaimMembers(s, d).workers
    ensures AttemptCovers(U.ClaimMembers(s, d), c) <==> (Id(c) == Id(d) ==> Admits(s, c))
  {
    TakenShape(s, d);
    var s', i := U.ClaimMembers(s, d), Id(c);
    hide U.ClaimMembers, Takes, Id, U.PolicyOf;
    if i == Id(d) {
      TakenClaimed(s.members, i, Claims(s.workers[c]));
      if s.workers[c].PolicyRead? { TakenCovers(s.members, i, s.workers[c].policy + Known(s.log, c.job)); }
      if s.workers[c].PolicyAccepted? { TakenCovers(s.members, i, Known(s.log, c.job)); }
      hide Covers, AllClaimed, PendingCarried, PendingClaimed, Known, U.SetStatus, U.Unsettled;
    } else {
      ClaimShrinks(s.members, Id(d), i);
      hide AttemptCovers, U.SetStatus, U.Unsettled;
      FrozenIsShrinking(s.members, s'.members, i);
      AttemptStays(s, s', c);
    }
  }

  lemma TakenCovers(members: Members, i: nat, policy: Policy)
    requires Covers(members, i, policy)
    ensures Covers(U.SetStatus(members, U.Unsettled(members, i), Running), i, policy) <==> PendingCarried(members, i, policy)
  {
    var members' := U.SetStatus(members, U.Unsettled(members, i), Running);
    if Covers(members', i, policy) {
      forall m | m in members && members[m].instance == i && members[m].status == Pending ensures Carried(members[m], policy) {
        assert members'[m] == members[m].(status := Running) && Carried(members'[m], policy);
      }
    }
    if PendingCarried(members, i, policy) {
      forall m | m in members' && members'[m].instance == i && Reconcilable(members'[m]) ensures Carried(members'[m], policy) {
        assert m in members && members[m].status != Success;
        assert members[m].status == Pending || Reconcilable(members[m]);
      }
    }
  }

  lemma TakenClaimed(members: Members, i: nat, claimed: set<nat>)
    ensures AllClaimed(members, i, claimed) ==>
              (AllClaimed(U.SetStatus(members, U.Unsettled(members, i), Running), i, claimed) <==> PendingClaimed(members, i, claimed))
  {
    var members' := U.SetStatus(members, U.Unsettled(members, i), Running);
    if AllClaimed(members', i, claimed) {
      forall m | m in members && members[m].instance == i && members[m].status == Pending ensures m in claimed {
        assert members'[m].status == Running;
      }
    }
  }

  lemma TakingRows(s: State, d: Claim)
    requires CleanupsCovered(s) && Takes(s, d)
    ensures CleanupsCovered(U.ClaimMembers(s, d)) <==> RowAdmits(s, Id(d))
  {
    var s' := U.ClaimMembers(s, d);
    TakenShape(s, d);
    hide U.ClaimMembers, Takes, Id, U.PolicyOf, CleanupCovered, RowAdmits;
    forall j ensures CleanupCovered(s', j) <==> (j == Id(d) ==> RowAdmits(s, j)) {
      assert CleanupCovered(s, j);
      TakenRow(s, s', j, Id(d));
    }
  }

  lemma TakenRow(s: State, s': State, j: nat, i: nat)
    requires CleanupCovered(s, j) && s' == s.(members := s'.members, workers := s'.workers)
    requires s'.members == U.SetStatus(s.members, U.Unsettled(s.members, i), Running)
    ensures CleanupCovered(s', j) <==> (j == i ==> RowAdmits(s, j))
  {
    if AtCleanup(s, j) {
      var known := Known(s.log, s.core.life[InstanceRow(j)].job.value);
      if j == i {
        TakenCovers(s.members, i, known);
      } else {
        ClaimShrinks(s.members, i, j);
        FrozenIsShrinking(s.members, s'.members, j);
        ShrinkCovers(s.members, s'.members, j, known, known);
      }
    }
    hide Covers, Known, PendingCarried, U.SetStatus, U.Unsettled;
  }

  lemma TakingClaims(s: State, d: Claim)
    requires Keyed(s) && ClaimsOwn(s.workers, s.members, s.core.nextId) && Takes(s, d)
    ensures var s' := U.ClaimMembers(s, d); ClaimsOwn(s'.workers, s'.members, s'.core.nextId)
  {
    var s' := U.ClaimMembers(s, d);
    TakenShape(s, d);
    assert forall m <- s.members :: m < s.core.nextId;
    TakenMembers(s.members, Id(d));
    hide U.ClaimMembers, Keyed, Takes, Id, U.PolicyOf, U.SetStatus, U.Unsettled;
    forall c | c in s'.workers ensures ClaimsOf(s'.workers[c], Id(c), s'.members, s'.core.nextId) {
      if c != d { assert ClaimsOf(s.workers[c], Id(c), s.members, s.core.nextId); }
    }
  }

  lemma TakenMembers(members: Members, i: nat)
    ensures forall m <- U.Unsettled(members, i) :: m in members && members[m].instance == i
    ensures var members' := U.SetStatus(members, U.Unsettled(members, i), Running);
            members'.Keys == members.Keys && forall m <- members :: members'[m].instance == members[m].instance
  {}

  /** A current attempt takes the members without harm, and nobody does any harm when none is pending. */
  lemma CurrentIsHarmless(s: State, d: Claim)
    requires Sound(s) && LocalsFit(s.workers) && Takes(s, d) && Owned(s.core, d)
    ensures Harmless(s, Id(d))
  {
    OwnStepOf(s, d);
    forall c | c in s.workers && Owned(s.core, c) && Id(c) == Id(d) ensures Admits(s, c) {
      assert Fits(c.step, s.workers[c]);
      hide Sound, Owned, LocalsFit, Id;
      if c != d && OnInstance(c.step) { OtherInstance(s, c, d); }
    }
  }

  lemma NothingPendingIsHarmless(s: State, i: nat)
    requires !U.PendingMember(s.members, i)
    ensures Harmless(s, i)
  {
    hide Owned, Id, Known;
  }
}
