/** Taking the members where `Harmless` does not hold really loses a change: from there the system can run
    on, without any further such event, to the end of an update that breaks its promise. */
module LostMembers {
  import opened Records
  import opened Execution
  import opened Store
  import opened Events
  import opened Frames
  import opened Soundness
  import opened Tables
  import opened Readiness
  import opened Coverage
  import opened System
  import Protocol
  import Runs
  import Liveness
  import Theorems
  import K = WorkerSteps
  import U = UpdateSteps

  // ---------- what the end of an update promises ----------

  /** Every member that it settles was carried, as it is now, by a policy accepted in the job. */
  ghost predicate SettlesAccepted(s: State, c: Claim) {
    var s' := U.FinalizeUpdate(s, c);
    forall m | m in s.members && m in s'.members && s.members[m].status != Success && s'.members[m].status == Success ::
      (s'.members[m].username, s'.members[m].role) in Known(s.log, c.job)
  }

  /** It leaves every member of the instance settled, or a fresh update pending. */
  ghost predicate LeavesNone(s: State, c: Claim) {
    var s', k := U.FinalizeUpdate(s, c), InstanceRow(Id(c));
    && k in s'.core.life
    && (|| (s'.core.life[k].status == Success && SettledMembers(s'.members, Id(c)))
        || s'.core.life[k] == Life(Updating, Pending, Some(s.core.nextId), Some(Step.UpdateInstance)))
  }

  ghost predicate Breaks(s: State, c: Claim) {
    c in s.workers && U.FinalizeUpdate(s, c) != s && !(SettlesAccepted(s, c) && LeavesNone(s, c))
  }

  ghost predicate BreaksAfter(s: State, events: seq<Event>, c: Claim) {
    Theorems.CarefulRun(s, events) && Breaks(Run(s, events), c)
  }

  /** Some careful run from here ends an update that breaks the promise. */
  ghost predicate Loses(s: State) {
    exists events, c :: BreaksAfter(s, events, c)
  }

  // ---------- where everything is accounted for, nothing is lost ----------

  lemma CoveredKeeps(s: State, c: Claim)
    requires Good(s) && Covered(s)
    ensures !Breaks(s, c)
  {
    hide Good, Covered, U.FinalizeUpdate, Id, SettledMembers, Sound, Keyed, Linked, LocalsFit, Known;
    GoodSound(s);
    if c in s.workers && U.FinalizeUpdate(s, c) != s {
      EndsSettledOrRestaged(s, c);
      var s' := U.FinalizeUpdate(s, c);
      forall m | m in s.members && m in s'.members && s.members[m].status != Success && s'.members[m].status == Success
        ensures (s'.members[m].username, s'.members[m].role) in Known(s.log, c.job)
      {
        SettledWasAccepted(s, c, m);
        var policy :| AcceptedPolicy(c.job, policy) in s.log && (s.members[m].username, s.members[m].role) in policy;
        KnownHas(s.log, c.job, policy);
      }
    }
  }

  lemma CoveredLosesNothing(s: State)
    requires Good(s) && Covered(s)
    ensures !Loses(s)
  {
    hide Good, Covered, Run, Breaks, Theorems.CarefulRun;
    forall events, c ensures !BreaksAfter(s, events, c) {
      if Theorems.CarefulRun(s, events) {
        Theorems.CarefulRunCovers(s, events);
        CoveredKeeps(Run(s, events), c);
      }
    }
  }

  // ---------- running on ----------

  lemma BreaksNow(s: State, c: Claim)
    requires Breaks(s, c)
    ensures Loses(s)
  {
    hide Breaks;
    assert Theorems.CarefulRun(s, []) && Run(s, []) == s;
    assert BreaksAfter(s, [], c);
  }

  lemma LosesFirst(s: State, e: Event)
    requires Theorems.CarefulEvent(s, e) && Loses(Apply(s, e))
    ensures Loses(s)
  {
    hide Breaks, Apply, Theorems.CarefulEvent;
    var events, c :| BreaksAfter(Apply(s, e), events, c);
    var all := [e] + events;
    assert all[0] == e && all[1..] == events;
    assert Theorems.CarefulRun(s, all) && Run(s, all) == Run(Apply(s, e), events);
    assert BreaksAfter(s, all, c);
  }

  predicate Claiming(e: Event) {
    e.Work? && e.act == Update(ClaimMembers)
  }

  /** Every event but taking the members is careful. */
  lemma Goes(s: State, e: Event)
    requires Good(s) && !Claiming(e)
    ensures Good(Apply(s, e))
    ensures Loses(Apply(s, e)) ==> Loses(s)
  {
    hide Good, Apply, Loses;
    ApplyKeepsGood(s, e);
    assert Theorems.CarefulEvent(s, e);
    if Loses(Apply(s, e)) { LosesFirst(s, e); }
  }

  lemma Attempt(s: State, c: Claim)
    requires Good(s) && c in s.workers && Owned(s.core, c) && OnInstance(c.step)
    ensures Id(c) in s.instances && Id(c) in s.allocations
    ensures NeedsReadyInstance(c.step) ==> Ready(s.instances[Id(c)])
    ensures Fits(c.step, s.workers[c])
  {
    assert Fits(c.step, s.workers[c]);
    hide Good, Owned, Id, Sound, Keyed, Linked, LocalsFit, Prepared, AssignedReady, OnInstance, NeedsReadyInstance, Fits;
    GoodSound(s);
    Theorems.GoodReady(s);
    InstancePrerequisites(s, c);
  }

  /** A member that was taken, while no other change of its instance is pending. */
  predicate Victim(members: Members, i: nat, p: nat) {
    p in members && members[p].instance == i && members[p].status == Running && !U.PendingMember(members, i)
  }

  predicate Missed(members: Members, p: nat, claimed: set<nat>, known: Policy)
    requires p in members
  {
    p !in claimed || !Carried(members[p], known)
  }

  // ---------- the schedule, from its end to its beginning ----------

  lemma SettlingMisses(members: Members, i: nat, p: nat, claimed: set<nat>, known: Policy)
    requires Victim(members, i, p) && Missed(members, p, claimed, known)
    ensures var members' := U.Settle(members, i, claimed);
            && !U.PendingMember(members', i) && p in members && members[p].status == Running
            && p in members' && members'[p].instance == i
            && (|| members'[p].status == Running
                || (members'[p].status == Success && (members'[p].username, members'[p].role) !in known))
  {
    var members' := U.Settle(members, i, claimed);
    forall m | m in members' && members'[m].instance == i ensures members'[m].status != Pending {
      assert m in members && members[m].instance == i;
    }
  }

  /** The end of an update changes the job it owns. */
  lemma EndChanges(s: State, c: Claim)
    requires At(s, c, CleanupUsers) && s.workers[c].CleanupDone? && Id(c) in s.instances && Owned(s.core, c)
    requires Protocol.Inv(s.core)
    ensures U.FinalizeUpdate(s, c) != s
  {
    var s' := U.FinalizeUpdate(s, c);
    assert Protocol.JobOk(s.core, c.job);
    hide Protocol.Inv, U.Settle, U.Orphans, U.PendingMember, K.WorkspaceRows, Id;
    assert s'.core.jobs[c.job].status == Success;
  }

  lemma DoneBreaks(s: State, c: Claim, p: nat)
    requires Good(s) && c in s.workers && Owned(s.core, c) && c.step == CleanupUsers && s.workers[c].CleanupDone?
    requires Victim(s.members, Id(c), p) && Missed(s.members, p, s.workers[c].claimed, Known(s.log, c.job))
    ensures Loses(s)
  {
    hide Good, Owned, Id, Sound, Keyed, Linked, LocalsFit, U.FinalizeUpdate, U.Settle, U.PendingMember, Known, Victim, Missed, Loses, Protocol.Inv;
    Attempt(s, c);
    GoodSound(s);
    Theorems.GoodInv(s);
    EndChanges(s, c);
    FinalizeRestages(s, c);
    SettlingMisses(s.members, Id(c), p, s.workers[c].claimed, Known(s.log, c.job));
    var s' := U.FinalizeUpdate(s, c);
    if s'.members[p].status == Running { RunningIsUnsettled(s'.members, Id(c), p); }
    hide SettledMembers;
    assert !(SettlesAccepted(s, c) && LeavesNone(s, c));
    BreaksNow(s, c);
  }

  lemma RunningIsUnsettled(members: Members, i: nat, p: nat)
    requires p in members && members[p].status == Running && members[p].instance == i
    ensures !SettledMembers(members, i)
  {}

  lemma ReadLoses(s: State, c: Claim, p: nat)
    requires Good(s) && c in s.workers && Owned(s.core, c) && c.step == CleanupUsers && s.workers[c].CleanupRead?
    requires Victim(s.members, Id(c), p) && Missed(s.members, p, s.workers[c].claimed, Known(s.log, c.job))
    ensures Loses(s)
  {
    hide Good, Owned, Id, Known, Victim, Missed, Loses, Ready, Apply;
    Attempt(s, c);
    var e := Event.Work(c, Update(FinishCleanup));
    FinishedCleanup(s, c);
    Goes(s, e);
    DoneBreaks(Apply(s, e), c, p);
  }

  lemma FinishedCleanup(s: State, c: Claim)
    requires At(s, c, CleanupUsers) && s.workers[c].CleanupRead? && Id(c) in s.instances && Ready(s.instances[Id(c)])
    ensures Apply(s, Event.Work(c, Update(FinishCleanup))) == SetLocal(s, c, CleanupDone(s.workers[c].claimed, s.workers[c].argoName))
  {
    hide Id;
  }

  lemma StartedLoses(s: State, c: Claim, p: nat)
    requires Good(s) && c in s.workers && Owned(s.core, c) && c.step == CleanupUsers && s.workers[c] == Started
    requires Victim(s.members, Id(c), p) && !Carried(s.members[p], Known(s.log, c.job))
    ensures Loses(s)
  {
    hide Good, Owned, Id, Known, Loses, Ready, Apply, U.SetStatus, U.Reconciled, U.ExpectedNames, Victim;
    Attempt(s, c);
    var e := Event.Work(c, Update(ClaimCleanup));
    ClaimedCleanup(s, c);
    ReconcilingKeeps(s.members, Id(c), p);
    Goes(s, e);
    ReadLoses(Apply(s, e), c, p);
  }

  lemma ClaimedCleanup(s: State, c: Claim)
    requires At(s, c, CleanupUsers) && s.workers[c] == Started && Id(c) in s.instances && Ready(s.instances[Id(c)])
    ensures var s': State := Apply(s, Event.Work(c, Update(ClaimCleanup))); var claimed := U.Reconciled(s.members, Id(c));
            && s' == s.(members := U.SetStatus(s.members, claimed, Running), workers := s'.workers)
            && c in s'.workers && s'.workers[c].CleanupRead? && s'.workers[c].claimed == claimed
  {
    hide Id, U.SetStatus, U.Reconciled, U.ExpectedNames;
  }

  lemma ReconcilingKeeps(members: Members, i: nat, p: nat)
    requires Victim(members, i, p)
    ensures p in members
    ensures var members' := U.SetStatus(members, U.Reconciled(members, i), Running);
            Victim(members', i, p) && members'[p] == members[p]
  {
    var members' := U.SetStatus(members, U.Reconciled(members, i), Running);
    forall m | m in members' && members'[m].instance == i ensures members'[m].status != Pending {
      assert m in members && members[m].instance == i;
    }
  }

  /** A row at the cleanup step: reclaim its job if it is running, deliver it, and clean up. */
  lemma RowLoses(s: State, i: nat, p: nat)
    requires Good(s) && AtCleanup(s, i) && Victim(s.members, i, p)
    requires !Carried(s.members[p], Known(s.log, s.core.life[InstanceRow(i)].job.value))
    ensures Loses(s)
  {
    hide Good, Id, Known, Loses, Victim, Apply, Protocol.Inv, PrepareRetry, Claimable, Carried;
    Theorems.GoodInv(s);
    var j, staleBefore := CleanupRevives(s, i);
    Reclaimed(s, j, staleBefore);
    Goes(s, Event.Reclaim(j, staleBefore));
    hide AtCleanup;
    DeliveredLoses(s.(core := PrepareRetry(s.core, j, staleBefore)), i, j, p);
  }

  /** With a late enough threshold the job of a row at the cleanup step can be delivered. */
  lemma CleanupRevives(s: State, i: nat) returns (j: nat, staleBefore: int)
    requires Protocol.Inv(s.core) && AtCleanup(s, i)
    ensures j == s.core.life[InstanceRow(i)].job.value
    ensures var core := PrepareRetry(s.core, j, staleBefore);
            && Claimable(core, j, CleanupUsers) && j in core.jobs && core.jobs[j].resource == Some(InstanceRow(i))
            && core.jobs[j].task == CleanupUsers && core.jobs[j].step == CleanupUsers
  {
    hide Protocol.Inv, PrepareRetry, Claimable;
    CleanupIsLive(s, i);
    j := s.core.life[InstanceRow(i)].job.value;
    staleBefore := if s.core.jobs[j].claimedAt.Some? then s.core.jobs[j].claimedAt.value else 0;
    Runs.ReclaimRevives(s.core, j, staleBefore);
    ReclaimKeepsResource(s.core, j, staleBefore);
  }

  lemma DeliveredLoses(s: State, i: nat, j: nat, p: nat)
    requires Good(s) && Claimable(s.core, j, CleanupUsers) && Victim(s.members, i, p)
    requires j in s.core.jobs && s.core.jobs[j].resource == Some(InstanceRow(i))
    requires s.core.jobs[j].task == CleanupUsers && s.core.jobs[j].step == CleanupUsers
    requires !Carried(s.members[p], Known(s.log, j))
    ensures Loses(s)
  {
    hide Good, Id, Known, Loses, Victim, Apply, Claimable, Owned, ClaimExecution, Carried;
    var deliver, c := Event.Deliver(j, CleanupUsers, 0), ClaimToken(s.core, j);
    Liveness.Revived(s, j, CleanupUsers, 0);
    Goes(s, deliver);
    RowToken(c, i);
    StartedLoses(Apply(s, deliver), c, p);
  }

  lemma Reclaimed(s: State, id: nat, staleBefore: int)
    ensures Apply(s, Event.Reclaim(id, staleBefore)) == s.(core := PrepareRetry(s.core, id, staleBefore))
  {
    hide PrepareRetry;
  }

  lemma RowToken(c: Claim, i: nat)
    requires c.resource == Some(InstanceRow(i))
    ensures Id(c) == i
  {}

  lemma CleanupIsLive(s: State, i: nat)
    requires Protocol.Inv(s.core) && AtCleanup(s, i)
    ensures var j := s.core.life[InstanceRow(i)].job.value;
            && j in s.core.jobs && Runs.Live(s.core, j) && s.core.jobs[j].resource == Some(InstanceRow(i))
            && s.core.jobs[j].task == CleanupUsers && s.core.jobs[j].step == CleanupUsers
  {
    assert Protocol.Agrees(s.core, InstanceRow(i));
    assert Protocol.JobOk(s.core, s.core.life[InstanceRow(i)].job.value);
    hide Protocol.Inv, InWorkflow, FitsResource, ActionOf;
  }

  lemma ReclaimKeepsResource(core: Core, id: nat, staleBefore: int)
    requires id in core.jobs
    ensures var core' := PrepareRetry(core, id, staleBefore);
            && id in core'.jobs && core'.jobs[id].resource == core.jobs[id].resource
            && core'.jobs[id].task == core.jobs[id].task && core'.jobs[id].step == core.jobs[id].step
  {
    hide RetryTask;
  }

  lemma AcceptedLoses(s: State, c: Claim, p: nat)
    requires Good(s) && c in s.workers && Owned(s.core, c) && s.workers[c].PolicyAccepted?
    requires c.step == Step.UpdateInstance || c.step == Step.StartInstance
    requires Victim(s.members, Id(c), p) && !Carried(s.members[p], Known(s.log, c.job))
    ensures Loses(s)
  {
    hide Good, Owned, Id, Known, Loses, Victim, Apply, Sound, Keyed, Linked, LocalsFit, Ready, AtCleanup;
    Attempt(s, c);
    GoodSound(s);
    var e := Event.Work(c, Update(FinishPolicy("coder")));
    FinishedPolicy(s, c);
    Goes(s, e);
    RowLoses(Apply(s, e), Id(c), p);
  }

  lemma FinishedPolicy(s: State, c: Claim)
    requires Sound(s) && c in s.workers && Owned(s.core, c) && s.workers[c].PolicyAccepted? && Id(c) in s.instances
    requires c.step == Step.UpdateInstance || c.step == Step.StartInstance
    ensures var s' := Apply(s, Event.Work(c, Update(FinishPolicy("coder"))));
            && s'.members == s.members && s'.log == s.log
            && AtCleanup(s', Id(c)) && s'.core.life[InstanceRow(Id(c))].job == Some(c.job)
  {
    hide Sound, Owned, AdvanceExecution, Id;
    assert Protocol.Inv(s.core) && c in s.core.claims by { SoundParts(s, c); }
    assert c.resource == Some(InstanceRow(Id(c))) by { OwnedResource(s.core, c); }
    AdvancedToCleanup(s.core, c);
    PolicyAdvances(s, c);
  }

  lemma SoundParts(s: State, c: Claim)
    requires Sound(s) && c in s.workers
    ensures Protocol.Inv(s.core) && c in s.core.claims
  {
    hide Protocol.Inv;
  }

  lemma PolicyAdvances(s: State, c: Claim)
    requires c in s.workers && Owned(s.core, c) && s.workers[c].PolicyAccepted? && Id(c) in s.instances
    requires c.step == Step.UpdateInstance || c.step == Step.StartInstance
    ensures var s' := Apply(s, Event.Work(c, Update(FinishPolicy("coder"))));
            s'.members == s.members && s'.log == s.log && s'.core == AdvanceExecution(s.core, c, CleanupUsers)
  {
    hide Owned, AdvanceExecution, Id;
  }

  lemma AdvancedToCleanup(core: Core, c: Claim)
    requires Protocol.Inv(core) && c in core.claims && Owned(core, c) && c.resource == Some(InstanceRow(Id(c)))
    ensures var core', k := AdvanceExecution(core, c, CleanupUsers), InstanceRow(Id(c));
            k in core'.life && core'.life[k].step == Some(CleanupUsers) && core'.life[k].job == Some(c.job)
  {
    assert Protocol.TokenOk(core, c);
    hide Protocol.Inv, Id;
  }

  lemma PolicyLoses(s: State, c: Claim, p: nat)
    requires Good(s) && c in s.workers && Owned(s.core, c) && s.workers[c].PolicyRead?
    requires c.step == Step.UpdateInstance || c.step == Step.StartInstance
    requires Victim(s.members, Id(c), p) && !Carried(s.members[p], s.workers[c].policy + Known(s.log, c.job))
    ensures Loses(s)
  {
    hide Good, Owned, Id, Known, Loses, Victim, Apply, Ready;
    Attempt(s, c);
    var e := Event.Work(c, Update(AcceptPolicy));
    AcceptedNow(s, c);
    Goes(s, e);
    AcceptedLoses(Apply(s, e), c, p);
  }

  lemma AcceptedNow(s: State, c: Claim)
    requires c in s.workers && s.workers[c].PolicyRead? && Id(c) in s.allocations
    requires c.step == Step.UpdateInstance || c.step == Step.StartInstance
    ensures var s' := Apply(s, Event.Work(c, Update(AcceptPolicy)));
            && s'.core == s.core && s'.members == s.members
            && c in s'.workers && s'.workers[c].PolicyAccepted?
            && Known(s'.log, c.job) == s.workers[c].policy + Known(s.log, c.job)
  {
    hide Id, Known;
    KnownAppends(s.log, c.job, s.workers[c].policy);
  }

  lemma KnownAppends(log: seq<Fact>, job: nat, policy: Policy)
    ensures Known(log + [AcceptedPolicy(job, policy)], job) == policy + Known(log, job)
  {
    var log' := log + [AcceptedPolicy(job, policy)];
    KnownHas(log', job, policy);
    KnownGrows(log, log', job);
    forall entry | entry in Known(log', job) ensures entry in policy + Known(log, job) {
      var fact :| fact in log' && fact.AcceptedPolicy? && fact.job == job && entry in fact.policy;
      assert fact in log || fact == AcceptedPolicy(job, policy);
    }
  }

  // ---------- the theorem ----------

  lemma TakenVictim(members: Members, i: nat, p: nat)
    requires p in members && members[p].instance == i && members[p].status == Pending
    ensures var members' := U.SetStatus(members, U.Unsettled(members, i), Running);
            Victim(members', i, p) && members'[p] == members[p].(status := Running)
  {
    var members' := U.SetStatus(members, U.Unsettled(members, i), Running);
    forall m | m in members' && members'[m].instance == i ensures members'[m].status != Pending {
      assert m in members && members[m].instance == i;
    }
  }

  lemma RowHarms(s: State, d: Claim)
    requires Good(s) && Takes(s, d) && !RowAdmits(s, Id(d))
    ensures Loses(U.ClaimMembers(s, d))
  {
    hide Good, U.ClaimMembers, U.SetStatus, U.Unsettled, U.PolicyOf, Takes, Id, Known, Loses, Victim;
    var s', i := U.ClaimMembers(s, d), Id(d);
    TakenShape(s, d);
    ClaimedGood(s, d);
    var known := Known(s.log, s.core.life[InstanceRow(i)].job.value);
    var p :| p in s.members && s.members[p].instance == i && s.members[p].status == Pending && !Carried(s.members[p], known);
    TakenVictim(s.members, i, p);
    SameCleanup(s, s', i);
    RowLoses(s', i, p);
  }

  lemma SameCleanup(s: State, s': State, i: nat)
    requires s'.core == s.core && AtCleanup(s, i)
    ensures AtCleanup(s', i)
  {}

  lemma ClaimedGood(s: State, d: Claim)
    requires Good(s)
    ensures Good(U.ClaimMembers(s, d)) && Apply(s, Event.Work(d, Update(ClaimMembers))) == U.ClaimMembers(s, d)
  {
    hide Good, U.ClaimMembers;
    ApplyKeepsGood(s, Event.Work(d, Update(ClaimMembers)));
  }

  /** The pending member that the attempt does not admit. */
  lemma NotAdmitted(s: State, c: Claim) returns (p: nat)
    requires c in s.workers && !Admits(s, c)
    ensures p in s.members && s.members[p].instance == Id(c) && s.members[p].status == Pending
    ensures match s.workers[c]
            case PolicyRead(_, policy) => !Carried(s.members[p], policy + Known(s.log, c.job))
            case PolicyAccepted(_, _) => !Carried(s.members[p], Known(s.log, c.job))
            case CleanupRead(claimed, _, _) => p !in claimed
            case CleanupDone(claimed, _) => p !in claimed
            case _ => false
  {
    hide Id, Known, Carried;
    var l := s.workers[c];
    if l.PolicyRead? {
      p :| p in s.members && s.members[p].instance == Id(c) && s.members[p].status == Pending
           && !Carried(s.members[p], l.policy + Known(s.log, c.job));
    } else if l.PolicyAccepted? {
      p :| p in s.members && s.members[p].instance == Id(c) && s.members[p].status == Pending
           && !Carried(s.members[p], Known(s.log, c.job));
    } else if l.CleanupRead? {
      p :| p in s.members && s.members[p].instance == Id(c) && s.members[p].status == Pending && p !in l.claimed;
    } else {
      assert l.CleanupDone?;
      p :| p in s.members && s.members[p].instance == Id(c) && s.members[p].status == Pending && p !in l.claimed;
    }
  }

  lemma AttemptHarms(s: State, d: Claim, c: Claim)
    requires Good(s) && Takes(s, d) && c in s.workers && Owned(s.core, c) && Id(c) == Id(d) && !Admits(s, c)
    ensures Loses(U.ClaimMembers(s, d))
  {
    hide Good, U.ClaimMembers, U.SetStatus, U.Unsettled, U.PolicyOf, Takes, Id, Known, Loses, Victim, Owned, Admits, Carried, Fits;
    var s', l := U.ClaimMembers(s, d), s.workers[c];
    TakenShape(s, d);
    ClaimedGood(s, d);
    WorkerFits(s, c);
    var p := NotAdmitted(s, c);
    TakenVictim(s.members, Id(c), p);
    assert c != d && s'.workers[c] == l;
    StatusCarries(s.members[p], Running);
    if l.PolicyRead? { PolicyLoses(s', c, p); }
    else if l.PolicyAccepted? { AcceptedLoses(s', c, p); }
    else if l.CleanupRead? { ReadLoses(s', c, p); }
    else { DoneBreaks(s', c, p); }
  }

  lemma StatusCarries(m: Member, status: Status)
    ensures forall policy :: Carried(m.(status := status), policy) == Carried(m, policy)
  {}

  lemma WorkerFits(s: State, c: Claim)
    requires Good(s) && c in s.workers
    ensures match s.workers[c]
            case PolicyRead(_, _) => c.step == Step.UpdateInstance || c.step == Step.StartInstance
            case PolicyAccepted(_, _) => c.step == Step.UpdateInstance || c.step == Step.StartInstance
            case CleanupRead(_, _, _) => c.step == CleanupUsers
            case CleanupDone(_, _) => c.step == CleanupUsers
            case _ => true
  {
    assert Fits(c.step, s.workers[c]);
    hide Good;
  }

  /** Exactly when taking the members can lose a change. In every state where the changes are accounted
      for, whoever takes the members: every careful continuation keeps the promise of every end of an
      update if and only if the pending members are carried or claimed as the stage of the update needs. */
  lemma LosesExactly(s: State, d: Claim)
    requires Good(s) && Covered(s) && Takes(s, d)
    ensures Loses(Apply(s, Event.Work(d, Update(ClaimMembers)))) <==> !Harmless(s, Id(d))
  {
    hide Good, Covered, U.ClaimMembers, Takes, Loses, Sound, Keyed, Linked, LocalsFit, RowAdmits, Admits, Id, Apply;
    GoodSound(s);
    ClaimedGood(s, d);
    if Harmless(s, Id(d)) {
      TakingCovers(s, d);
      CoveredLosesNothing(U.ClaimMembers(s, d));
    } else if !RowAdmits(s, Id(d)) {
      RowHarms(s, d);
    } else {
      var c :| c in s.workers && Owned(s.core, c) && Id(c) == Id(d) && !Admits(s, c);
      AttemptHarms(s, d, c);
    }
  }

  /** Over runs: after any careful run the next taking of members loses a change if and only if it is
      harmful, and a careful run has lost none. */
  lemma FirstLoss(events: seq<Event>, d: Claim)
    requires Theorems.CarefulRun(START, events)
    ensures !Loses(Run(START, events))
    ensures Takes(Run(START, events), d) ==>
              (Loses(Apply(Run(START, events), Event.Work(d, Update(ClaimMembers)))) <==> !Harmless(Run(START, events), Id(d)))
  {
    hide Good, Covered, Takes, Loses, Harmless, Run, Apply, Theorems.CarefulRun, Id;
    Theorems.CarefulIsCovered(events);
    CoveredLosesNothing(Run(START, events));
    if Takes(Run(START, events), d) { LosesExactly(Run(START, events), d); }
  }
}
