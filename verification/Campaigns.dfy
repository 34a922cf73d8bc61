/** Template publication: while an attempt is current, its source snapshot stays current and every
    target it has handled without failure carries exactly the commit it fetched at that revision. */
module Campaigns {
  import opened Records
  import opened Execution
  import opened Store
  import opened Events
  import opened Fencing
  import opened Frames
  import opened Soundness
  import opened Tables
  import opened Asks
  import opened Interlock
  import opened Readiness
  import Protocol
  import Runs
  import Homes
  import RequestTables
  import WorkerSteps
  import U = UpdateSteps
  import D = TeardownSteps
  import T = TemplateSteps
  import W = WorkspaceSteps
  import IR = InstanceRequests
  import Placement
  import TR = TemplateRequests

  predicate NotDeleting(life: map<Resource, Life>, i: nat) {
    InstanceRow(i) in life ==> life[InstanceRow(i)].action != Deleting
  }

  predicate IsCampaign(l: Local) {
    l.TargetsRead? || l.Publishing?
  }

  predicate IsOwnTarget(s: State, c: Claim, a: nat) {
    && a in s.assignments && NotDeleting(s.core.life, s.assignments[a].instance)
    && (if c.step == Step.SyncTemplate then s.assignments[a].template == Id(c) else a == Id(c))
  }

  ghost predicate CampaignOk(s: State, c: Claim)
    requires c in s.workers
  {
    IsCampaign(s.workers[c]) ==>
      && T.Distinct(s.workers[c].targets)
      && (c.step == Step.CreateTemplate ==> s.workers[c].targets == [Id(c)])
      && (forall a <- s.workers[c].targets :: IsOwnTarget(s, c, a))
      && (s.workers[c].Publishing? ==> PublishingOk(s, c, s.workers[c]))
  }

  ghost predicate PublishingOk(s: State, c: Claim, l: Local)
    requires l.Publishing?
  {
    && l.handled <= |l.targets|
    && T.TemplateOf(s, c) in s.templates && l.revision == s.templates[T.TemplateOf(s, c)].revision
    && (l.failures == 0 ==> HandledSettled(s, l))
    && (T.HasNext(l) && l.open ==> Deployed(s, T.Current(l)))
    && (T.HasNext(l) && l.known ==> Known(s, T.Current(l)))
  }

  ghost predicate HandledSettled(s: State, l: Local)
    requires l.Publishing?
  {
    forall k | 0 <= k < l.handled && k < |l.targets| :: Settled(s, l.targets[k], l.commit, l.revision)
  }

  predicate Known(s: State, a: nat) {
    a in s.assignments && TemplateKnown(s.assignments[a])
  }

  ghost predicate Campaigning(s: State) {
    forall c <- s.workers | Owned(s.core, c) :: CampaignOk(s, c)
  }

  /** An unfinished assignment keeps its instance from being deleted. */
  ghost predicate BusyLive(life: map<Resource, Life>, as_: map<nat, Assignment>) {
    forall a <- as_ :: Busy(life, AssignmentRow(a)) ==> NotDeleting(life, as_[a].instance)
  }

  // ---------- the fence of deployment writes ----------

  lemma OneOwner(core: Core, c: Claim, d: Claim)
    requires Protocol.Inv(core) && c in core.claims && d in core.claims && Owned(core, c) && Owned(core, d)
    requires c.resource.Some? && d.resource == c.resource
    ensures c == d
  {
    OwnedRow(core, c);
    OwnedRow(core, d);
  }

  /** `_lock_owned_template_target` accepts exactly the current attempts of the two publishing steps, on
      their own targets. */
  lemma FenceIsOwnership(s: State, c: Claim, a: nat)
    requires Sound(s) && c in s.workers && T.TargetExists(s, a)
    ensures T.OwnsTarget(s, c, a) <==>
              && Owned(s.core, c)
              && (|| (c.step == Step.SyncTemplate && s.assignments[a].template == Id(c))
                  || (c.step == Step.CreateTemplate && a == Id(c)))
  {
    assert Protocol.TokenOk(s.core, c);
    if c.job in s.core.jobs { assert Protocol.JobOk(s.core, c.job); }
    if Owned(s.core, c) { OwnedResource(s.core, c); }
    hide Protocol.Inv;
  }

  lemma OwnedIsBusy(core: Core, c: Claim)
    requires Protocol.Inv(core) && c in core.claims && Owned(core, c)
    ensures c.resource == RowAt(c.step, Id(c))
    ensures c.resource.Some? ==> Busy(core.life, c.resource.value)
  {
    OwnedResource(core, c);
    hide Protocol.Inv, Owned;
  }

  predicate Publisher(core: Core, c: Claim, a: nat, t: nat) {
    Owned(core, c) && ((c.step == Step.SyncTemplate && Id(c) == t) || (c.step == Step.CreateTemplate && Id(c) == a))
  }

  /** The interlock leaves at most one publisher of one assignment of one template. */
  lemma OnePublisher(core: Core, c: Claim, d: Claim, a: nat, t: nat)
    requires Protocol.Inv(core) && c in core.claims && d in core.claims
    requires Publisher(core, c, a, t) && Publisher(core, d, a, t)
    requires !(Busy(core.life, AssignmentRow(a)) && Busy(core.life, TemplateRow(t)))
    ensures c == d
  {
    OwnedIsBusy(core, c);
    OwnedIsBusy(core, d);
    hide Protocol.Inv, Owned, Id, Busy;
    if c.resource == d.resource { OneOwner(core, c, d); }
  }

  /** While an attempt publishes a target, nobody else may write the target's deployment. */
  lemma NoForeignWriter(s: State, c: Claim, d: Claim, a: nat)
    requires Sound(s) && Keyed(s) && Linked(s) && AssignmentsWait(s.core.life, s.assignments)
    requires c in s.workers && d in s.workers && c != d && Owned(s.core, c) && IsOwnTarget(s, c, a)
    requires c.step == Step.SyncTemplate || c.step == Step.CreateTemplate
    ensures !T.OwnsTarget(s, d, a)
  {
    assert T.TargetExists(s, a);
    if T.OwnsTarget(s, d, a) {
      FenceIsOwnership(s, d, a);
      hide Protocol.Inv, Owned, T.OwnsTarget, Keyed, Linked, Id, Busy;
      OnePublisher(s.core, c, d, a, s.assignments[a].template);
    }
  }

  // ---------- the steps ----------

  /** Instances that are not being deleted stay so, and assignments keep their pairs. */
  ghost predicate Lives(s: State, s': State) {
    && SameAssignments(s.assignments, s'.assignments) && s'.templates == s.templates
    && (forall i: nat :: NotDeleting(s.core.life, i) ==> NotDeleting(s'.core.life, i))
  }

  lemma MovesLive(s: State, s': State, c: Claim)
    requires Sound(s) && c in s.workers && Plain(s, s', c)
    ensures Lives(s, s')
  {
    StepMovesLife(s, s', c);
    PlainSameRows(s, s', c);
    if Owned(s.core, c) { OwnedIsBusy(s.core, c); }
    hide Sound, CoreStep, Gate, Owned, Id, InstancesTouched, AssignmentsTouched, WorkspacesTouched, MembersTouched, LocalMoves, LogMoves;
    hide SameKeys, SameInstances, SameAssignments, SameWorkspaces, SameMembers;
  }

  lemma LivesTargets(s: State, s': State, c: Claim, targets: seq<nat>)
    requires Lives(s, s') && forall a <- targets :: IsOwnTarget(s, c, a)
    ensures forall a <- targets :: IsOwnTarget(s', c, a)
  {
    hide NotDeleting, Id, TemplateKnown;
  }

  lemma LivesTemplate(s: State, s': State, c: Claim)
    requires Lives(s, s')
    ensures T.TemplateOf(s', c) == T.TemplateOf(s, c)
  {
    hide NotDeleting, Id, TemplateKnown;
  }

  lemma LivesDeployed(s: State, s': State, a: nat)
    requires Lives(s, s')
    ensures Deployed(s, a) ==> Deployed(s', a)
    ensures Known(s, a) ==> Known(s', a)
  {}

  /** Only the target being published is written. */
  ghost predicate OthersSettled(s: State, s': State, l: Local) {
    forall a :: a in s.assignments && !(T.HasNext(l) && T.Current(l) == a) ==> a in s'.assignments && s'.assignments[a] == s.assignments[a]
  }

  lemma TouchesCurrent(s: State, s': State, c: Claim)
    requires c in s.workers && AssignmentsTouched(s, s', c)
    ensures OthersSettled(s, s', s.workers[c])
  {
    hide T.OwnsTarget, Owned, TemplateKnown;
  }

  lemma SettledStays(s: State, s': State, l: Local)
    requires l.Publishing? && T.Distinct(l.targets) && l.handled <= |l.targets| && OthersSettled(s, s', l) && HandledSettled(s, l)
    ensures HandledSettled(s', l)
  {
    hide T.Applied;
  }

  lemma SameCampaign(s: State, s': State, c: Claim)
    requires c in s.workers && c in s'.workers && s'.workers[c] == s.workers[c] && CampaignOk(s, c) && IsCampaign(s.workers[c])
    requires Lives(s, s') && OthersSettled(s, s', s.workers[c])
    ensures CampaignOk(s', c)
  {
    var l := s.workers[c];
    LivesTargets(s, s', c, l.targets);
    if l.Publishing? {
      LivesTemplate(s, s', c);
      if l.failures == 0 { SettledStays(s, s', l); }
      hide IsOwnTarget, OthersSettled, HandledSettled, T.Distinct, T.TemplateOf;
    }
  }

  lemma NextCampaign(s: State, s': State, c: Claim)
    requires c in s.workers && c in s'.workers && CampaignOk(s, c) && s'.workers[c].Publishing? && Publishes(s, s', c)
    requires IsCampaign(s.workers[c])
    requires Lives(s, s') && OthersSettled(s, s', s.workers[c])
    ensures CampaignOk(s', c)
  {
    var l, l' := s.workers[c], s'.workers[c];
    LivesTargets(s, s', c, l.targets);
    LivesTemplate(s, s', c);
    if T.HasNext(l) { LivesDeployed(s, s', T.Current(l)); }
    assert s'.templates == s.templates;
    if l.Publishing? && l.failures == 0 { SettledStays(s, s', l); }
    hide IsOwnTarget, OthersSettled, T.Distinct, T.TemplateOf, Settled, Lives, TemplateKnown;
  }

  lemma NewCampaign(s: State, s': State, c: Claim)
    requires Sound(s) && c in s.workers && c in s'.workers && Owned(s.core, c) && BusyLive(s.core.life, s.assignments)
    requires s'.workers[c].TargetsRead? && Reaches(s, s', c) && Fits(c.step, s'.workers[c])
    requires Lives(s, s')
    ensures CampaignOk(s', c)
  {
    hide Sound, BusyLive, Lives;
    NewTargets(s, s', c);
    hide Reaches, Owned, IsOwnTarget;
    LivesTargets(s, s', c, s'.workers[c].targets);
  }

  lemma NewTargets(s: State, s': State, c: Claim)
    requires Sound(s) && c in s.workers && c in s'.workers && Owned(s.core, c) && BusyLive(s.core.life, s.assignments)
    requires s'.workers[c].TargetsRead? && Reaches(s, s', c) && Fits(c.step, s'.workers[c])
    ensures T.Distinct(s'.workers[c].targets) && forall a <- s'.workers[c].targets :: IsOwnTarget(s, c, a)
    ensures c.step == Step.CreateTemplate ==> s'.workers[c].targets == [Id(c)]
  {
    OwnedIsBusy(s.core, c);
    hide Sound, Owned, Id, Busy;
  }

  lemma OwnCampaign(s: State, s': State, c: Claim)
    requires Sound(s) && c in s.workers && c in s'.workers && Plain(s, s', c) && Owned(s.core, c)
    requires CampaignOk(s, c) && BusyLive(s.core.life, s.assignments)
    ensures CampaignOk(s', c)
  {
    MovesLive(s, s', c);
    assert AssignmentsTouched(s, s', c) && LocalMoves(s, s', c);
    TouchesCurrent(s, s', c);
    var l, l' := s.workers[c], s'.workers[c];
    hide Plain, Sound, Owned, AssignmentsTouched, BusyLive, OthersSettled, Lives, Publishes;
    if !IsCampaign(l') {
      hide Reaches, LocalMoves;
    } else if l' == l {
      hide Reaches, CampaignOk;
      SameCampaign(s, s', c);
    } else if l'.TargetsRead? {
      hide CampaignOk;
      NewCampaign(s, s', c);
    } else {
      assert Publishes(s, s', c);
      PublishersAreCampaigns(s, s', c);
      hide Reaches, CampaignOk;
      NextCampaign(s, s', c);
    }
  }

  lemma PublishersAreCampaigns(s: State, s': State, c: Claim)
    requires c in s.workers && c in s'.workers && s'.workers[c].Publishing? && Publishes(s, s', c)
    ensures IsCampaign(s.workers[c])
  {}

  // ---------- everything else leaves a current campaign alone ----------

  /** What the campaign of `c` depends on is as it was. */
  ghost predicate CampaignFrame(s: State, s': State, c: Claim)
    requires c in s.workers && IsCampaign(s.workers[c])
  {
    && c in s'.workers && s'.workers[c] == s.workers[c]
    && (forall a <- s.workers[c].targets :: IsOwnTarget(s, c, a) ==>
          && a in s.assignments && a in s'.assignments && s'.assignments[a] == s.assignments[a]
          && NotDeleting(s'.core.life, s.assignments[a].instance))
    && T.TemplateOf(s', c) == T.TemplateOf(s, c)
    && (T.TemplateOf(s, c) in s.templates && s.workers[c].Publishing? ==>
          T.TemplateOf(s, c) in s'.templates && s'.templates[T.TemplateOf(s, c)].revision == s.templates[T.TemplateOf(s, c)].revision)
  }

  lemma FrameKeeps(s: State, s': State, c: Claim)
    requires c in s.workers && IsCampaign(s.workers[c]) && CampaignFrame(s, s', c) && CampaignOk(s, c)
    ensures CampaignOk(s', c)
  {
    var l := s.workers[c];
    forall a | a in l.targets ensures IsOwnTarget(s', c, a) { assert IsOwnTarget(s, c, a); }
    assert forall k | 0 <= k < |l.targets| :: l.targets[k] in s.assignments && l.targets[k] in s'.assignments
             && s'.assignments[l.targets[k]] == s.assignments[l.targets[k]];
    hide IsOwnTarget, T.TemplateOf, NotDeleting, T.Distinct, TemplateKnown, T.Applied;
  }

  /** The steps a campaign belongs to. */
  ghost predicate CampaignSteps(workers: map<Claim, Local>) {
    forall c <- workers :: IsCampaign(workers[c]) ==> c.step == Step.SyncTemplate || c.step == Step.CreateTemplate
  }

  lemma ForeignTargetStays(s: State, s': State, c: Claim, d: Claim, a: nat)
    requires Sound(s) && Keyed(s) && Linked(s) && AssignmentsWait(s.core.life, s.assignments)
    requires c.step == Step.SyncTemplate || c.step == Step.CreateTemplate
    requires c in s.workers && d in s.workers && c != d && AssignmentsTouched(s, s', d) && Lives(s, s') && Owned(s.core, c)
    requires IsOwnTarget(s, c, a)
    ensures a in s.assignments && a in s'.assignments && s'.assignments[a] == s.assignments[a] && NotDeleting(s'.core.life, s.assignments[a].instance)
  {
    hide Sound, Keyed, Linked, AssignmentsWait, Owned, T.OwnsTarget, AssignmentsTouched;
    NoForeignWriter(s, c, d, a);
    TouchedElsewhere(s, s', d, a);
    hide SameAssignments;
  }

  lemma TouchedElsewhere(s: State, s': State, d: Claim, a: nat)
    requires AssignmentsTouched(s, s', d) && !T.OwnsTarget(s, d, a) && a in s.assignments
    ensures a in s'.assignments && s'.assignments[a] == s.assignments[a]
  {
    hide T.OwnsTarget, AssignmentKept, Successful;
  }

  lemma ForeignPlain(s: State, s': State, c: Claim, d: Claim)
    requires Sound(s) && Keyed(s) && Linked(s) && AssignmentsWait(s.core.life, s.assignments) && CampaignSteps(s.workers)
    requires c in s.workers && d in s.workers && c != d && Plain(s, s', d) && Owned(s.core, c)
    requires IsCampaign(s.workers[c]) && CampaignOk(s, c)
    ensures CampaignFrame(s, s', c)
  {
    assert AssignmentsTouched(s, s', d) && OnlyWorker(s, s', d) && s'.templates == s.templates;
    MovesLive(s, s', d);
    hide Sound, Keyed, Linked, AssignmentsWait, Plain, Owned, AssignmentsTouched, IsOwnTarget, CampaignOk, Lives, NotDeleting;
    forall a | a in s.workers[c].targets && IsOwnTarget(s, c, a)
      ensures a in s.assignments && a in s'.assignments && s'.assignments[a] == s.assignments[a]
      ensures NotDeleting(s'.core.life, s.assignments[a].instance)
    {
      ForeignTargetStays(s, s', c, d, a);
    }
    LivesTemplate(s, s', c);
    hide T.TemplateOf;
  }

  lemma PlainKeepsCampaigns(s: State, s': State, d: Claim)
    requires Sound(s) && Keyed(s) && Linked(s) && AssignmentsWait(s.core.life, s.assignments) && CampaignSteps(s.workers)
    requires d in s.workers && Plain(s, s', d) && Campaigning(s) && BusyLive(s.core.life, s.assignments)
    ensures Campaigning(s')
  {
    PlainFenced(s, s', d);
    assert OnlyWorker(s, s', d) && Protocol.Evolves(s.core, s'.core) && Protocol.Inv(s'.core);
    forall c | c in s'.workers && Owned(s'.core, c) ensures CampaignOk(s', c) {
      assert c in s.workers;
      Runs.OwnershipIsNotRegained(s.core, s'.core, c);
      assert CampaignOk(s, c);
      hide Sound, Keyed, Linked, AssignmentsWait, Plain, Owned, BusyLive, CampaignSteps, Fenced, Protocol.Inv, Protocol.Evolves, Campaigning;
      if c == d {
        OwnCampaign(s, s', c);
      } else if IsCampaign(s.workers[c]) {
        ForeignPlain(s, s', c, d);
        hide CampaignFrame, CampaignOk, OnlyWorker;
        FrameKeeps(s, s', c);
      }
    }
  }

  lemma PlainKeepsBusyLive(s: State, s': State, c: Claim)
    requires Lives(s, s') && Fenced(s.core, s'.core, c) && BusyLive(s.core.life, s.assignments)
    ensures BusyLive(s'.core.life, s'.assignments)
  {
    hide Protocol.Inv, Protocol.Evolves, Owned, Busy, NotDeleting, TemplateKnown;
  }

  // ---------- other events ----------

  /** Every current campaign is framed, and new workers have not started one. */
  lemma FramedKeeps(s: State, s': State)
    requires Sound(s) && Sound(s') && Protocol.Evolves(s.core, s'.core) && Campaigning(s)
    requires forall c <- s'.workers :: c in s.workers || s'.workers[c].Started?
    requires forall c <- s.workers :: c in s'.workers && s'.workers[c] == s.workers[c]
    requires forall c <- s.workers | IsCampaign(s.workers[c]) && Owned(s.core, c) && Owned(s'.core, c) :: CampaignFrame(s, s', c)
    ensures Campaigning(s')
  {
    forall c | c in s'.workers && Owned(s'.core, c) ensures CampaignOk(s', c) {
      if c in s.workers && IsCampaign(s.workers[c]) {
        Runs.OwnershipIsNotRegained(s.core, s'.core, c);
        assert CampaignOk(s, c);
        hide Sound, Protocol.Evolves, Owned, Campaigning, CampaignFrame, CampaignOk;
        FrameKeeps(s, s', c);
      }
    }
  }

  lemma RedeliveryKeepsCampaigns(s: State, s': State)
    requires Sound(s) && Redelivers(s, s') && Campaigning(s)
    ensures Campaigning(s')
  {
    assert StatusesMove(s.core.life, s'.core.life) && Sound(s') && Protocol.Evolves(s.core, s'.core);
    assert forall i :: NotDeleting(s.core.life, i) ==> NotDeleting(s'.core.life, i);
    hide Protocol.Inv, Protocol.Evolves, CoreRedelivers, StatusesMove, Owned, Campaigning, NotDeleting, Begins, T.TemplateOf;
    forall c | c in s.workers && IsCampaign(s.workers[c]) ensures CampaignFrame(s, s', c) {
      SameTemplateOf(s, s', c);
    }
    FramedKeeps(s, s');
  }

  lemma SameTemplateOf(s: State, s': State, c: Claim)
    requires s'.assignments == s.assignments
    ensures T.TemplateOf(s', c) == T.TemplateOf(s, c)
  {}

  lemma RedeliveryKeepsBusyLive(s: State, s': State)
    requires Redelivers(s, s') && BusyLive(s.core.life, s.assignments)
    ensures BusyLive(s'.core.life, s'.assignments)
  {
    assert StatusesMove(s.core.life, s'.core.life);
    hide CoreRedelivers;
  }

  /** A campaign's own targets stay where they are. */
  ghost predicate TargetsStay(s: State, s': State, c: Claim) {
    && (forall a | IsOwnTarget(s, c, a) ::
          && a in s.assignments && a in s'.assignments && s'.assignments[a] == s.assignments[a]
          && NotDeleting(s'.core.life, s.assignments[a].instance))
    && (c.step == Step.CreateTemplate ==> IsOwnTarget(s, c, Id(c)))
  }

  lemma StayingIsFrame(s: State, s': State, c: Claim)
    requires c in s.workers && c in s'.workers && s'.workers[c] == s.workers[c] && IsCampaign(s.workers[c])
    requires TargetsStay(s, s', c)
    requires var t := T.TemplateOf(s, c);
             t in s.templates ==> t in s'.templates && s'.templates[t] == s.templates[t]
    ensures CampaignFrame(s, s', c)
  {
    hide Id, NotDeleting;
    assert c.step == Step.CreateTemplate ==> Id(c) in s.assignments && Id(c) in s'.assignments && s'.assignments[Id(c)] == s.assignments[Id(c)];
  }

  lemma CreatorOwnsTarget(s: State, c: Claim)
    requires Sound(s) && Keyed(s) && c in s.workers && Owned(s.core, c) && BusyLive(s.core.life, s.assignments)
    ensures c.step == Step.CreateTemplate ==> IsOwnTarget(s, c, Id(c))
  {
    if c.step == Step.CreateTemplate { OwnedIsBusy(s.core, c); }
    hide Sound, Owned, Id;
  }

  lemma RemovedInstanceRow(core: Core, d: Claim)
    requires Protocol.Inv(core) && d in core.claims && Owned(core, d) && d.step == RemoveLocalConfiguration
    ensures InstanceRow(Id(d)) in core.life && core.life[InstanceRow(Id(d))].action == Deleting
  {
    OwnedResource(core, d);
    hide Protocol.Inv, Owned;
  }

  lemma CalmNotDeleting(core: Core, core': Core, k: Option<Resource>, i: nat)
    requires Calm(core, core', k) && NotDeleting(core.life, i)
    requires k == Some(InstanceRow(i)) && InstanceRow(i) in core'.life ==> core'.life[InstanceRow(i)].action != Deleting
    ensures NotDeleting(core'.life, i)
  {
    hide Busy;
  }

  lemma RemoveLocalTargets(s: State, s': State, c: Claim, d: Claim)
    requires Sound(s) && Keyed(s) && c in s.workers && d in s.workers && Owned(s.core, c) && Owned(s.core, d) && d.step == RemoveLocalConfiguration
    requires Fenced(s.core, s'.core, d) && d.resource == Some(InstanceRow(Id(d))) && InstanceRow(Id(d)) !in s'.core.life
    requires s'.assignments == s.assignments - D.AssignmentsOf(s, Id(d)) && BusyLive(s.core.life, s.assignments)
    ensures TargetsStay(s, s', c)
  {
    CreatorOwnsTarget(s, c);
    RemovedInstanceRow(s.core, d);
    assert Calm(s.core, s'.core, d.resource);
    hide Sound, Keyed, Owned, BusyLive, Fenced, Calm, Id;
    forall a | IsOwnTarget(s, c, a)
      ensures a in s'.assignments && s'.assignments[a] == s.assignments[a] && NotDeleting(s'.core.life, s.assignments[a].instance)
    {
      CalmNotDeleting(s.core, s'.core, d.resource, s.assignments[a].instance);
    }
  }

  lemma RemoveLocalKeepsCampaigns(s: State, d: Claim)
    requires Sound(s) && Keyed(s) && d in s.workers && Campaigning(s) && BusyLive(s.core.life, s.assignments)
    ensures Campaigning(D.RemoveLocal(s, d))
  {
    var s' := D.RemoveLocal(s, d);
    if s' != s {
      RemoveLocalFenced(s, d);
      RemoveLocalErases(s, d);
      RemoveLocalMoves(s, d);
      assert InstanceRow(Id(d)) !in s'.core.life;
      assert Sound(s') && Protocol.Evolves(s.core, s'.core);
      hide D.RemoveLocal, Sound, Keyed, Campaigning, Owned, Erases, Fenced, Protocol.Evolves, D.AssignmentsOf, D.WorkspacesOf, D.MembersOf;
      hide DeleteRows, CompleteAndDelete, Id, BusyLive, TargetsStay, CampaignFrame;
      forall c | c in s.workers && IsCampaign(s.workers[c]) && Owned(s.core, c) ensures CampaignFrame(s, s', c) {
        RemoveLocalTargets(s, s', c, d);
        StayingIsFrame(s, s', c);
      }
      FramedKeeps(s, s');
    }
  }

  /** The assignment that a current attempt removes is nobody else's target. */
  lemma RemovedIsNoTarget(s: State, c: Claim, d: Claim)
    requires Sound(s) && c in s.workers && d in s.workers && AssignmentsWait(s.core.life, s.assignments)
    requires Owned(s.core, c) && Owned(s.core, d) && d.step == Step.DeleteTemplate
    requires c.step == Step.SyncTemplate || c.step == Step.CreateTemplate
    ensures !IsOwnTarget(s, c, Id(d))
  {
    hide Protocol.Inv, Owned, Id, Busy, NotDeleting;
    OwnedIsBusy(s.core, c);
    OwnedIsBusy(s.core, d);
    if c.resource == d.resource { OneOwner(s.core, c, d); }
  }

  lemma SparedTarget(s: State, s': State, c: Claim, k: Resource, a: nat, b: nat)
    requires Calm(s.core, s'.core, Some(k)) && !k.InstanceRow? && s'.assignments == s.assignments - {b}
    requires IsOwnTarget(s, c, a) && !IsOwnTarget(s, c, b)
    ensures a in s.assignments && a in s'.assignments && s'.assignments[a] == s.assignments[a]
    ensures NotDeleting(s'.core.life, s.assignments[a].instance)
  {
    assert a != b;
    CalmNotDeleting(s.core, s'.core, Some(k), s.assignments[a].instance);
    hide Calm, NotDeleting, Id;
  }

  lemma RemoveAssignmentTargets(s: State, s': State, c: Claim, d: Claim)
    requires Sound(s) && Keyed(s) && c in s.workers && d in s.workers && AssignmentsWait(s.core.life, s.assignments)
    requires BusyLive(s.core.life, s.assignments)
    requires Owned(s.core, c) && Owned(s.core, d) && d.step == Step.DeleteTemplate
    requires c.step == Step.SyncTemplate || c.step == Step.CreateTemplate
    requires Fenced(s.core, s'.core, d) && d.resource == Some(AssignmentRow(Id(d))) && s'.assignments == s.assignments - {Id(d)}
    ensures TargetsStay(s, s', c)
  {
    assert Calm(s.core, s'.core, d.resource);
    hide Sound, Keyed, Owned, BusyLive, Fenced, Calm, Id, AssignmentsWait, IsOwnTarget;
    CreatorOwnsTarget(s, c);
    RemovedIsNoTarget(s, c, d);
    forall a | IsOwnTarget(s, c, a)
      ensures a in s.assignments && a in s'.assignments && s'.assignments[a] == s.assignments[a]
      ensures NotDeleting(s'.core.life, s.assignments[a].instance)
    {
      SparedTarget(s, s', c, AssignmentRow(Id(d)), a, Id(d));
    }
  }

  lemma RemoveAssignmentKeepsCampaigns(s: State, d: Claim)
    requires Sound(s) && Keyed(s) && d in s.workers && AssignmentsWait(s.core.life, s.assignments) && CampaignSteps(s.workers)
    requires Campaigning(s) && BusyLive(s.core.life, s.assignments)
    ensures Campaigning(T.RemoveAssignment(s, d))
  {
    var s' := T.RemoveAssignment(s, d);
    if s' != s {
      RemoveAssignmentFenced(s, d);
      RemoveAssignmentErases(s, d);
      RemoveAssignmentMoves(s, d);
      assert Sound(s') && Protocol.Evolves(s.core, s'.core);
      hide T.RemoveAssignment, Sound, Keyed, Campaigning, Owned, Erases, Fenced, Protocol.Evolves, T.PairWorkspaces, AssignmentsWait;
      hide DeleteRows, CompleteAndDelete, Id, BusyLive, TargetsStay, CampaignFrame;
      forall c | c in s.workers && IsCampaign(s.workers[c]) && Owned(s.core, c) ensures CampaignFrame(s, s', c) {
        RemoveAssignmentTargets(s, s', c, d);
        StayingIsFrame(s, s', c);
      }
      FramedKeeps(s, s');
    }
  }

  /** Events that leave every assignment alone and start no deletion. */
  lemma AssignmentsStay(s: State, s': State, c: Claim)
    requires Sound(s) && Keyed(s) && c in s.workers && Owned(s.core, c) && BusyLive(s.core.life, s.assignments)
    requires s'.assignments == s.assignments && forall i: nat :: NotDeleting(s.core.life, i) ==> NotDeleting(s'.core.life, i)
    ensures TargetsStay(s, s', c)
  {
    CreatorOwnsTarget(s, c);
    hide Sound, Keyed, Owned, BusyLive, Id, NotDeleting;
  }

  lemma SteadyKeepsCampaigns(s: State, s': State)
    requires Sound(s) && Sound(s') && Protocol.Evolves(s.core, s'.core) && Keyed(s) && s'.workers == s.workers
    requires s'.assignments == s.assignments && s'.templates == s.templates
    requires forall i: nat :: NotDeleting(s.core.life, i) ==> NotDeleting(s'.core.life, i)
    requires Campaigning(s) && BusyLive(s.core.life, s.assignments)
    ensures Campaigning(s')
  {
    hide Sound, Keyed, Campaigning, Owned, Protocol.Evolves, BusyLive, TargetsStay, CampaignFrame, NotDeleting;
    forall c | c in s.workers && IsCampaign(s.workers[c]) && Owned(s.core, c) ensures CampaignFrame(s, s', c) {
      AssignmentsStay(s, s', c);
      StayingIsFrame(s, s', c);
    }
    FramedKeeps(s, s');
  }

  lemma FinalizeLives(s: State, d: Claim, i: nat)
    requires Sound(s) && d in s.workers && U.FinalizeUpdate(s, d) != s && NotDeleting(s.core.life, i)
    ensures NotDeleting(U.FinalizeUpdate(s, d).core.life, i)
  {
    FinalizeLife(s, d);
    hide U.FinalizeUpdate, Sound, Owned, U.Orphans, U.Settle, WorkerSteps.WorkspaceRows, Id;
  }

  lemma FinalizeKeepsCampaigns(s: State, d: Claim)
    requires Sound(s) && Keyed(s) && d in s.workers && Campaigning(s) && BusyLive(s.core.life, s.assignments)
    ensures Campaigning(U.FinalizeUpdate(s, d)) && BusyLive(U.FinalizeUpdate(s, d).core.life, U.FinalizeUpdate(s, d).assignments)
  {
    var s' := U.FinalizeUpdate(s, d);
    if s' != s {
      FinalizeFenced(s, d);
      FinalizeMoves(s, d);
      FinalizeInstance(s, d);
      FinalizeErases(s, d);
      assert Sound(s') && Protocol.Evolves(s.core, s'.core) && Calm(s.core, s'.core, d.resource);
      hide U.FinalizeUpdate, Sound, Keyed, Campaigning, Owned, Erases, Fenced, Protocol.Evolves, U.Orphans, U.Settle, Departed;
      hide DeleteRows, CompleteExecution, RequestJob, Id, NotDeleting, Busy;
      forall i | NotDeleting(s.core.life, i) ensures NotDeleting(s'.core.life, i) { FinalizeLives(s, d, i); }
      assert BusyLive(s'.core.life, s'.assignments);
      hide BusyLive, Calm;
      TemplatesKept(s, d);
      SteadyKeepsCampaigns(s, s');
    }
  }

  lemma TemplatesKept(s: State, d: Claim)
    ensures U.FinalizeUpdate(s, d).templates == s.templates && U.FinalizeUpdate(s, d).workers == s.workers
  {
    hide U.Orphans, U.Settle, Owned, DeleteRows, CompleteExecution, RequestJob, Id;
  }

  lemma FinishDeleteWorkspaceKeepsCampaigns(s: State, d: Claim)
    requires Sound(s) && Keyed(s) && d in s.workers && Campaigning(s) && BusyLive(s.core.life, s.assignments)
    ensures var s' := W.FinishDeleteWorkspace(s, d); Campaigning(s') && BusyLive(s'.core.life, s'.assignments)
  {
    var s' := W.FinishDeleteWorkspace(s, d);
    if s' != s {
      FinishDeleteWorkspaceFenced(s, d);
      FinishDeleteWorkspaceErases(s, d);
      FinishDeleteWorkspaceMoves(s, d);
      assert Sound(s') && Protocol.Evolves(s.core, s'.core) && Calm(s.core, s'.core, d.resource);
      hide W.FinishDeleteWorkspace, Sound, Keyed, Campaigning, Owned, Erases, Fenced, Protocol.Evolves, CompleteAndDelete, Id, NotDeleting, Busy;
      forall i: nat | NotDeleting(s.core.life, i) ensures NotDeleting(s'.core.life, i) { CalmNotDeleting(s.core, s'.core, d.resource, i); }
      assert BusyLive(s'.core.life, s'.assignments);
      hide BusyLive, Calm;
      SteadyKeepsCampaigns(s, s');
    }
  }

  lemma ErasureKeepsBusyLive(s: State, s': State, c: Claim, as_: set<nat>)
    requires Calm(s.core, s'.core, c.resource) && s'.assignments == s.assignments - as_
    requires forall i: nat :: c.resource == Some(InstanceRow(i)) ==> InstanceRow(i) !in s'.core.life
    requires BusyLive(s.core.life, s.assignments)
    ensures BusyLive(s'.core.life, s'.assignments)
  {
    hide Busy;
  }

  lemma RemoveLocalKeepsBusyLive(s: State, d: Claim)
    requires Sound(s) && d in s.workers && BusyLive(s.core.life, s.assignments)
    ensures BusyLive(D.RemoveLocal(s, d).core.life, D.RemoveLocal(s, d).assignments)
  {
    var s' := D.RemoveLocal(s, d);
    if s' != s {
      RemoveLocalFenced(s, d);
      RemoveLocalErases(s, d);
      RemoveLocalMoves(s, d);
      assert InstanceRow(Id(d)) !in s'.core.life && Calm(s.core, s'.core, d.resource);
      hide D.RemoveLocal, Sound, Owned, Erases, Fenced, Calm, D.AssignmentsOf, D.WorkspacesOf, D.MembersOf, DeleteRows, CompleteAndDelete, Id, BusyLive;
      ErasureKeepsBusyLive(s, s', d, D.AssignmentsOf(s, Id(d)));
    }
  }

  lemma RemoveAssignmentKeepsBusyLive(s: State, d: Claim)
    requires Sound(s) && d in s.workers && BusyLive(s.core.life, s.assignments)
    ensures BusyLive(T.RemoveAssignment(s, d).core.life, T.RemoveAssignment(s, d).assignments)
  {
    var s' := T.RemoveAssignment(s, d);
    if s' != s {
      RemoveAssignmentFenced(s, d);
      RemoveAssignmentErases(s, d);
      RemoveAssignmentMoves(s, d);
      assert Calm(s.core, s'.core, d.resource);
      hide T.RemoveAssignment, Sound, Owned, Erases, Fenced, Calm, T.PairWorkspaces, DeleteRows, CompleteAndDelete, Id, BusyLive;
      ErasureKeepsBusyLive(s, s', d, {Id(d)});
    }
  }

  // ---------- requests ----------

  lemma RequestedAction(core: Core, k: Resource, name: JobName, step: Step)
    requires ActionOf(name).Some?
    ensures k in RequestJob(core, k, name, step).life && RequestJob(core, k, name, step).life[k].action == ActionOf(name).value
    ensures k in RequestJob(DrawId(core), k, name, step).life && RequestJob(DrawId(core), k, name, step).life[k].action == ActionOf(name).value
  {}

  lemma MemberRequestSpares(s: State, r: InstanceRequest)
    requires r.AddMember? || r.SetRole? || r.DropMember?
    requires NotDeleting(s.core.life, InstanceOf(s, r))
    ensures NotDeleting(AnswerInstance(s, r).0.core.life, InstanceOf(s, r))
  {
    RequestedAction(s.core, InstanceRow(r.i), InstanceUpdate, Step.UpdateInstance);
    hide RequestJob, IR.HasActiveAssignment, IR.UsernameTaken, IR.MemberRefusal, IR.StagedJob, IR.Coalesces;
  }

  lemma PowerRequestSpares(s: State, r: InstanceRequest)
    requires !r.AddMember? && !r.SetRole? && !r.DropMember? && !r.DropInstance?
    requires NotDeleting(s.core.life, InstanceOf(s, r))
    ensures NotDeleting(AnswerInstance(s, r).0.core.life, InstanceOf(s, r))
  {
    var k := InstanceRow(InstanceOf(s, r));
    RequestedAction(s.core, k, InstanceCreate, Step.CreateSchema);
    RequestedAction(s.core, k, InstanceUpdate, Step.UpdateInstance);
    RequestedAction(s.core, k, InstanceStart, Step.StartInstance);
    RequestedAction(s.core, k, InstanceStop, StopWorkspaces);
    hide RequestJob, IR.HasActiveAssignment, IR.RetryFailedMembers, IR.LifecycleRefusal, Placement.Place;
  }

  lemma DropInstanceWaits(s: State, i: nat)
    ensures var s' := IR.RequestDeletion(s, i).0; s' == s || !IR.HasActiveAssignment(s, i)
  {
    hide IR.HasActiveAssignment;
  }

  /** Whoever a campaign or an unfinished assignment needs is not deleted under it. */
  lemma InstanceRequestSpares(s: State, r: InstanceRequest, j: nat)
    requires Protocol.Inv(s.core) && Keyed(s) && NotDeleting(s.core.life, j) && IR.HasActiveAssignment(s, j)
    ensures NotDeleting(AnswerInstance(s, r).0.core.life, j)
  {
    assert s.core.nextId !in s.instances;
    InstanceRequestAsks(s, r);
    if InstanceOf(s, r) == j {
      if r.DropInstance? { DropInstanceWaits(s, j); }
      else if r.AddMember? || r.SetRole? || r.DropMember? { MemberRequestSpares(s, r); }
      else { PowerRequestSpares(s, r); }
    }
    hide AnswerInstance, Protocol.Inv, Protocol.Evolves, Keyed, IR.HasActiveAssignment;
  }

  lemma TargetIsActive(s: State, c: Claim, a: nat)
    requires Sound(s) && c in s.workers && Owned(s.core, c) && IsOwnTarget(s, c, a)
    requires c.step == Step.SyncTemplate || c.step == Step.CreateTemplate
    ensures IR.HasActiveAssignment(s, s.assignments[a].instance)
  {
    hide Protocol.Inv, Owned, Id, Busy, NotDeleting;
    OwnedIsBusy(s.core, c);
    assert Busy(s.core.life, AssignmentRow(a)) || Busy(s.core.life, TemplateRow(s.assignments[a].template));
  }

  lemma InstanceRequestKeepsTargets(s: State, r: InstanceRequest, c: Claim)
    requires Sound(s) && Keyed(s) && BusyLive(s.core.life, s.assignments) && c in s.workers && Owned(s.core, c)
    requires c.step == Step.SyncTemplate || c.step == Step.CreateTemplate
    ensures TargetsStay(s, AnswerInstance(s, r).0, c)
  {
    var s' := AnswerInstance(s, r).0;
    assert s.core.nextId !in s.instances;
    InstanceRequestAsks(s, r);
    hide AnswerInstance, Protocol.Inv, Keyed, BusyLive, Owned, Asked, Id, NotDeleting, IR.HasActiveAssignment;
    CreatorOwnsTarget(s, c);
    forall a | IsOwnTarget(s, c, a)
      ensures a in s'.assignments && s'.assignments[a] == s.assignments[a] && NotDeleting(s'.core.life, s.assignments[a].instance)
    {
      TargetIsActive(s, c, a);
      InstanceRequestSpares(s, r, s.assignments[a].instance);
    }
  }

  lemma InstanceRequestKeepsCampaigns(s: State, r: InstanceRequest)
    requires Sound(s) && Keyed(s) && CampaignSteps(s.workers) && Campaigning(s) && BusyLive(s.core.life, s.assignments)
    ensures Campaigning(AnswerInstance(s, r).0)
  {
    var s' := AnswerInstance(s, r).0;
    assert s.core.nextId !in s.instances;
    InstanceRequestAsks(s, r);
    assert Sound(s') && Protocol.Evolves(s.core, s'.core);
    hide AnswerInstance, Sound, Keyed, Owned, Asked, Campaigning, Protocol.Evolves, BusyLive, TargetsStay, CampaignFrame;
    forall c | c in s.workers && IsCampaign(s.workers[c]) && Owned(s.core, c) ensures CampaignFrame(s, s', c) {
      InstanceRequestKeepsTargets(s, r, c);
      StayingIsFrame(s, s', c);
    }
    FramedKeeps(s, s');
  }

  lemma InstanceRequestKeepsBusyLive(s: State, r: InstanceRequest)
    requires Sound(s) && Keyed(s) && BusyLive(s.core.life, s.assignments)
    ensures BusyLive(AnswerInstance(s, r).0.core.life, AnswerInstance(s, r).0.assignments)
  {
    var s' := AnswerInstance(s, r).0;
    assert s.core.nextId !in s.instances;
    InstanceRequestAsks(s, r);
    forall a | a in s'.assignments && Busy(s'.core.life, AssignmentRow(a)) ensures NotDeleting(s'.core.life, s'.assignments[a].instance) {
      assert Busy(s.core.life, AssignmentRow(a));
      assert IR.HasActiveAssignment(s, s.assignments[a].instance);
      hide AnswerInstance, Protocol.Inv, Protocol.Evolves, Asked, NotDeleting, IR.HasActiveAssignment;
      InstanceRequestSpares(s, r, s.assignments[a].instance);
    }
  }

  // ---------- requests on templates ----------

  lemma DropTemplateSpares(s: State, u: nat, t: nat)
    requires t in s.templates && (Busy(s.core.life, TemplateRow(t)) || exists a <- s.assignments :: s.assignments[a].template == t)
    ensures t in TR.DeleteTemplate(s, u).0.templates
  {
    hide DiscardJob, DeleteRows;
  }

  lemma PutAssignmentSpares(s: State, i: nat, t: nat)
    ensures TR.PutAssignment(s, i, t).0.templates == s.templates
  {
    hide TR.FindAssignment, TR.ConsistentJob, TR.MutationRefusal;
  }

  lemma TemplateInUseStays(s: State, r: TemplateRequest, t: nat)
    requires t in s.templates && (Busy(s.core.life, TemplateRow(t)) || exists a <- s.assignments :: s.assignments[a].template == t)
    ensures t in AnswerTemplate(s, r).0.templates
  {
    hide TR.UpdateTemplate, TR.DeleteTemplate, TR.RequestSync, TR.CreateParameter, TR.UpdateParameter, TR.DeleteParameter;
    hide TR.PutAssignment, TR.DeleteAssignment, Busy, SameKeys, SameInstances;
    match r
    case AddTemplate(_, _) =>
    case SetSource(u, source, changedModules, compatible) => RequestTables.SetSourceShape(s, u, source, changedModules, compatible);
    case DropTemplate(u) => DropTemplateSpares(s, u, t);
    case ResyncTemplate(u) => RequestTables.ResyncTemplateShape(s, u);
    case AddParameter(u, payload) => RequestTables.AddParameterShape(s, u, payload);
    case SetParameter(u, payload) => RequestTables.SetParameterShape(s, u, payload);
    case DropParameter(u, name) => RequestTables.DropParameterShape(s, u, name);
    case PutAssignment(i, u) => PutAssignmentSpares(s, i, u);
    case DropAssignment(i, u) => RequestTables.DropAssignmentShape(s, i, u);
  }

  lemma TemplateRequestKeepsAssignments(s: State, r: TemplateRequest)
    requires Protocol.Inv(s.core) && Keyed(s)
    ensures forall a <- s.assignments :: a in AnswerTemplate(s, r).0.assignments && AnswerTemplate(s, r).0.assignments[a] == s.assignments[a]
  {
    assert TemplateRow(s.core.nextId) !in s.core.life;
    TemplateRequestAsks(s, r);
    hide Protocol.Inv, Keyed, Asked, TR.FindAssignment, TR.PutAssignment, TR.DeleteAssignment, TR.CreateTemplate, TR.UpdateTemplate;
    hide TR.DeleteTemplate, TR.RequestSync, TR.CreateParameter, TR.UpdateParameter, TR.DeleteParameter;
    if r.PutAssignment? {
      PutKeepsAssignments(s, r.i, r.t);
    } else if r.DropAssignment? {
      DropAssignmentWaits(s, r.i, r.t);
      hide TR.IsPair, TR.BusyPair;
    } else {
      hide AnswerTemplate;
    }
  }

  lemma PutKeepsAssignments(s: State, i: nat, t: nat)
    requires Keyed(s)
    ensures var s' := TR.PutAssignment(s, i, t).0;
            forall a <- s.assignments :: a in s'.assignments && s'.assignments[a] == s.assignments[a]
  {
    PutAssignmentWaits(s, i, t);
    Homes.AssignmentsBelow(s);
    hide TR.PutAssignment, Keyed, TR.FindAssignment;
  }

  lemma TemplateRequestKeepsInstances(s: State, r: TemplateRequest, i: nat)
    requires Protocol.Inv(s.core) && Keyed(s) && NotDeleting(s.core.life, i)
    ensures NotDeleting(AnswerTemplate(s, r).0.core.life, i)
  {
    assert TemplateRow(s.core.nextId) !in s.core.life;
    TemplateRequestAsks(s, r);
    hide AnswerTemplate, Protocol.Inv, Protocol.Evolves, Keyed, TR.FindAssignment;
  }

  lemma CampaignTemplate(s: State, c: Claim)
    requires Sound(s) && Keyed(s) && Linked(s) && c in s.workers && Owned(s.core, c)
    requires c.step == Step.SyncTemplate || c.step == Step.CreateTemplate
    ensures var t := T.TemplateOf(s, c);
            && t in s.templates && (Busy(s.core.life, TemplateRow(t)) || TR.ActiveAssignments(s, t))
            && (Busy(s.core.life, TemplateRow(t)) || exists a <- s.assignments :: s.assignments[a].template == t)
    ensures c.step == Step.CreateTemplate ==> Id(c) in s.assignments
  {
    OwnedIsBusy(s.core, c);
    if c.step == Step.CreateTemplate {
      assert Id(c) in s.assignments && Busy(s.core.life, AssignmentRow(Id(c)));
    }
    hide Protocol.Inv, Owned, Id;
  }

  lemma TemplateRequestKeepsTargets(s: State, r: TemplateRequest, c: Claim)
    requires Sound(s) && Keyed(s) && BusyLive(s.core.life, s.assignments) && c in s.workers && Owned(s.core, c)
    ensures TargetsStay(s, AnswerTemplate(s, r).0, c)
  {
    var s' := AnswerTemplate(s, r).0;
    hide AnswerTemplate, Sound, Keyed, Owned, Id, NotDeleting, BusyLive;
    assert Protocol.Inv(s.core) by { SoundInv(s); }
    CreatorOwnsTarget(s, c);
    TemplateRequestKeepsAssignments(s, r);
    forall a | IsOwnTarget(s, c, a) ensures NotDeleting(s'.core.life, s.assignments[a].instance) {
      TemplateRequestKeepsInstances(s, r, s.assignments[a].instance);
    }
  }

  lemma SoundInv(s: State)
    requires Sound(s)
    ensures Protocol.Inv(s.core)
  {}

  lemma TemplateRequestKeepsTemplate(s: State, r: TemplateRequest, c: Claim)
    requires Sound(s) && Keyed(s) && Linked(s) && c in s.workers && Owned(s.core, c)
    requires c.step == Step.SyncTemplate || c.step == Step.CreateTemplate
    ensures var s', t := AnswerTemplate(s, r).0, T.TemplateOf(s, c); t in s'.templates && t in s.templates && s'.templates[t] == s.templates[t]
  {
    hide AnswerTemplate, Sound, Keyed, Linked, Owned, Id, Busy, TR.ActiveAssignments, ChangedAtRest, T.TemplateOf;
    assert Protocol.Inv(s.core) by { SoundInv(s); }
    CampaignTemplate(s, c);
    TemplateInUseStays(s, r, T.TemplateOf(s, c));
    RequestAtRest(s, r, T.TemplateOf(s, c));
    FrozenRevision(s, AnswerTemplate(s, r).0, T.TemplateOf(s, c));
  }

  lemma TemplateRequestFrames(s: State, r: TemplateRequest, c: Claim)
    requires Sound(s) && Keyed(s) && Linked(s) && c in s.workers && Owned(s.core, c) && IsCampaign(s.workers[c])
    requires c.step == Step.SyncTemplate || c.step == Step.CreateTemplate
    requires BusyLive(s.core.life, s.assignments) && AnswerTemplate(s, r).0.workers == s.workers
    ensures CampaignFrame(s, AnswerTemplate(s, r).0, c)
  {
    hide AnswerTemplate, Sound, Keyed, Linked, Owned, T.TemplateOf, CampaignFrame, TargetsStay, BusyLive;
    TemplateRequestKeepsTargets(s, r, c);
    TemplateRequestKeepsTemplate(s, r, c);
    StayingIsFrame(s, AnswerTemplate(s, r).0, c);
  }

  lemma FrozenRevision(s: State, s': State, t: nat)
    requires ChangedAtRest(s, s', t) && t in s.templates && t in s'.templates
    requires Busy(s.core.life, TemplateRow(t)) || TR.ActiveAssignments(s, t)
    ensures s'.templates[t] == s.templates[t]
  {
    hide Busy, TR.ActiveAssignments, TR.ActiveWorkspaces;
  }

  lemma TemplateRequestKeepsCampaigns(s: State, r: TemplateRequest)
    requires Sound(s) && Keyed(s) && Linked(s) && CampaignSteps(s.workers) && Campaigning(s) && BusyLive(s.core.life, s.assignments)
    ensures Campaigning(AnswerTemplate(s, r).0)
  {
    var s' := AnswerTemplate(s, r).0;
    assert TemplateRow(s.core.nextId) !in s.core.life;
    TemplateRequestAsks(s, r);
    assert Sound(s') && Protocol.Evolves(s.core, s'.core);
    hide AnswerTemplate, Sound, Keyed, Linked, Owned, Asked, Campaigning, Protocol.Evolves, CampaignFrame, BusyLive;
    forall c | c in s.workers && IsCampaign(s.workers[c]) && Owned(s.core, c) ensures CampaignFrame(s, s', c) {
      TemplateRequestFrames(s, r, c);
    }
    FramedKeeps(s, s');
  }

  /** A job on an assignment is staged only while its instance is at rest and not being deleted. */
  lemma AssignmentRequestLives(s: State, r: TemplateRequest)
    requires Prepared(s.core.life, s.instances) && (r.PutAssignment? || r.DropAssignment?)
    ensures AnswerTemplate(s, r).0 == s || NotDeleting(s.core.life, r.i)
  {
    hide TR.FindAssignment, TR.ConsistentJob, TR.BusyPair;
  }

  lemma TemplateRequestKeepsBusyLive(s: State, r: TemplateRequest)
    requires Sound(s) && Keyed(s) && Prepared(s.core.life, s.instances) && BusyLive(s.core.life, s.assignments)
    ensures BusyLive(AnswerTemplate(s, r).0.core.life, AnswerTemplate(s, r).0.assignments)
  {
    hide TR.DeleteAssignment, TR.CreateTemplate, TR.UpdateTemplate, TR.DeleteTemplate, TR.RequestSync, TR.CreateParameter, TR.UpdateParameter;
    hide TR.DeleteParameter, TR.PutAssignment, Protocol.Inv, Protocol.Evolves, TR.FindAssignment;
    var s' := AnswerTemplate(s, r).0;
    assert TemplateRow(s.core.nextId) !in s.core.life;
    TemplateRequestAsks(s, r);
    TemplateRequestKeepsAssignments(s, r);
    if r.PutAssignment? { AssignmentRequestLives(s, r); PutAssignmentWaits(s, r.i, r.t); }
    if r.DropAssignment? { AssignmentRequestLives(s, r); DropAssignmentWaits(s, r.i, r.t); }
    forall a | a in s'.assignments && Busy(s'.core.life, AssignmentRow(a)) ensures NotDeleting(s'.core.life, s'.assignments[a].instance) {
      hide AnswerTemplate, Keyed, Prepared, TR.FindAssignment, NotDeleting, Protocol.Inv, Protocol.Evolves;
      if NotDeleting(s.core.life, s'.assignments[a].instance) { TemplateRequestKeepsInstances(s, r, s'.assignments[a].instance); }
    }
  }

  lemma WorkspaceRequestLives(s: State, r: WorkspaceRequest, i: nat)
    requires Protocol.Inv(s.core) && NotDeleting(s.core.life, i)
    ensures NotDeleting(AnswerWorkspace(s, r).0.core.life, i)
  {
    WorkspaceRequestAsks(s, r);
    hide AnswerWorkspace, Protocol.Inv, Protocol.Evolves;
  }

  lemma WorkspaceRequestKeepsBusyLive(s: State, r: WorkspaceRequest)
    requires Protocol.Inv(s.core) && BusyLive(s.core.life, s.assignments)
    ensures BusyLive(AnswerWorkspace(s, r).0.core.life, AnswerWorkspace(s, r).0.assignments)
  {
    WorkspaceRequestAsks(s, r);
    hide AnswerWorkspace, Protocol.Inv, Protocol.Evolves;
  }

  lemma WorkspaceRequestKeepsCampaigns(s: State, r: WorkspaceRequest)
    requires Sound(s) && Keyed(s) && Campaigning(s) && BusyLive(s.core.life, s.assignments)
    ensures Campaigning(AnswerWorkspace(s, r).0)
  {
    var s' := AnswerWorkspace(s, r).0;
    WorkspaceRequestAsks(s, r);
    assert Sound(s') && Protocol.Evolves(s.core, s'.core);
    hide AnswerWorkspace, Keyed, Campaigning, Protocol.Inv, Protocol.Evolves, BusyLive, Asked, NotDeleting;
    forall i: nat | NotDeleting(s.core.life, i) ensures NotDeleting(s'.core.life, i) { WorkspaceRequestLives(s, r, i); }
    SteadyKeepsCampaigns(s, s');
  }

  // ---------- what a finished publication means ----------

  /** When a synchronisation or the creation of an assignment succeeds, every target it selected holds
      a successful deployment of the commit it fetched at the template's current revision. */
  lemma PublicationComplete(s: State, c: Claim, a: nat)
    requires Campaigning(s) && c in s.workers && T.FinishPublication(s, c) != s && a in s.workers[c].targets
    ensures var s', t := T.FinishPublication(s, c), T.TemplateOf(s, c);
            && s.workers[c].Publishing? && t in s'.templates
            && Settled(s', a, s.workers[c].commit, s'.templates[t].revision)
  {
    assert Owned(s.core, c) && CampaignOk(s, c) && T.AllHandled(s.workers[c]);
    hide Owned, CompleteExecution, Campaigning, T.TemplateOf, T.Applied, Id;
    var l := s.workers[c];
    var k :| 0 <= k < |l.targets| && l.targets[k] == a;
    assert Settled(s, l.targets[k], l.commit, l.revision);
  }

  ghost predicate SuccessKnown(as_: map<nat, Assignment>) {
    forall a <- as_ :: Successful(as_[a]) ==> TemplateKnown(as_[a])
  }

  /** An assignment is exposed as created only with a known remote template. */
  ghost predicate CreatedKnown(life: map<Resource, Life>, as_: map<nat, Assignment>) {
    forall a <- as_ :: AssignmentRow(a) in life && life[AssignmentRow(a)].action == Created ==> TemplateKnown(as_[a])
  }

  /** Whoever writes a deployment after learning the remote template has stored it. */
  lemma WriterKnows(s: State, c: Claim)
    requires Sound(s) && c in s.workers && Campaigning(s) && T.HasNext(s.workers[c]) && s.workers[c].known
    requires T.OwnsTarget(s, c, T.Current(s.workers[c]))
    ensures Known(s, T.Current(s.workers[c]))
  {
    FenceIsOwnership(s, c, T.Current(s.workers[c]));
    hide Sound, Owned, T.OwnsTarget, Id;
    assert CampaignOk(s, c);
  }

  lemma PlainKeepsSuccess(s: State, s': State, c: Claim)
    requires Sound(s) && c in s.workers && AssignmentsTouched(s, s', c) && Campaigning(s) && SuccessKnown(s.assignments)
    ensures SuccessKnown(s'.assignments)
  {
    if s'.assignments != s.assignments {
      hide Sound, Campaigning, T.OwnsTarget;
      if s.workers[c].known { WriterKnows(s, c); }
      forall a | a in s'.assignments && Successful(s'.assignments[a]) ensures TemplateKnown(s'.assignments[a]) {
        assert a in s.assignments && AssignmentKept(s.assignments[a], s'.assignments[a]) by { TouchedAssignments(s, s', c); }
        assert a == T.Current(s.workers[c]) || s'.assignments[a] == s.assignments[a];
      }
    }
  }

  /** The assignment whose creation completes has been published. */
  lemma CreationIsPublished(s: State, s': State, c: Claim)
    requires c in s.workers && CampaignOk(s, c) && c.step == Step.CreateTemplate && Gate(s, s', c) && SuccessKnown(s.assignments)
    ensures Known(s, Id(c))
  {
    var l := s.workers[c];
    hide Id;
    assert l.Publishing? ==> Settled(s, l.targets[0], l.commit, l.revision);
  }

  lemma PlainKeepsCreated(s: State, s': State, c: Claim)
    requires Sound(s) && c in s.workers && Plain(s, s', c) && Campaigning(s) && SuccessKnown(s.assignments)
    requires CreatedKnown(s.core.life, s.assignments)
    ensures CreatedKnown(s'.core.life, s'.assignments)
  {
    StepMovesLife(s, s', c);
    PlainSameRows(s, s', c);
    if Owned(s.core, c) {
      OwnedIsBusy(s.core, c);
      assert CampaignOk(s, c);
      if c.step == Step.CreateTemplate && Gate(s, s', c) { CreationIsPublished(s, s', c); }
    }
    hide Sound, Plain, Campaigning, CampaignOk, Owned, Id, Gate, SuccessKnown, SameWorkspaces, SameMembers, SameInstances, SameKeys, Busy;
    hide LifeMoves, RowAt;
    forall a | a in s'.assignments && AssignmentRow(a) in s'.core.life && s'.core.life[AssignmentRow(a)].action == Created
      ensures TemplateKnown(s'.assignments[a])
    {
      CreatedBefore(s, s', c, a);
    }
  }

  /** A row is created already, or its own creation completes. */
  lemma CreatedBefore(s: State, s': State, c: Claim, a: nat)
    requires LifeMoves(s, s', c) && (Owned(s.core, c) ==> c.resource == RowAt(c.step, Id(c)))
    requires AssignmentRow(a) in s'.core.life && s'.core.life[AssignmentRow(a)].action == Created
    ensures AssignmentRow(a) in s.core.life
    ensures || s.core.life[AssignmentRow(a)].action == Created
            || (Owned(s.core, c) && c.step == Step.CreateTemplate && Gate(s, s', c) && a == Id(c))
  {
    hide Owned, Gate, Id;
  }

  /** Assignments disappear, are new without a deployment, or keep theirs; none becomes created. */
  ghost predicate KnownStays(s: State, s': State) {
    && (forall a <- s'.assignments ::
          if a in s.assignments then s'.assignments[a] == s.assignments[a] else s'.assignments[a].deployment.None?)
    && (forall a <- s'.assignments :: AssignmentRow(a) in s'.core.life && s'.core.life[AssignmentRow(a)].action == Created ==>
          a in s.assignments && AssignmentRow(a) in s.core.life && s.core.life[AssignmentRow(a)].action == Created)
  }

  lemma StayingKnown(s: State, s': State)
    requires KnownStays(s, s') && SuccessKnown(s.assignments) && CreatedKnown(s.core.life, s.assignments)
    ensures SuccessKnown(s'.assignments) && CreatedKnown(s'.core.life, s'.assignments)
  {}

  lemma RedeliveryStays(s: State, s': State)
    requires Redelivers(s, s')
    ensures KnownStays(s, s')
  {
    assert StatusesMove(s.core.life, s'.core.life);
    hide CoreRedelivers;
  }

  lemma DeletionStays(s: State, s': State, d: Claim, as_: set<nat>)
    requires Fenced(s.core, s'.core, d) && s'.assignments == s.assignments - as_
    requires d.resource.Some? && d.resource.value.AssignmentRow? ==> d.resource.value !in s'.core.life
    ensures KnownStays(s, s')
  {
    hide Protocol.Inv, Protocol.Evolves, Busy, Owned;
  }

  lemma AskedStays(s: State, s': State, k: Option<Resource>)
    requires Asked(s.core, s'.core, k) && (k.Some? ==> !k.value.AssignmentRow?) && s'.assignments == s.assignments
    ensures KnownStays(s, s')
  {
    hide Protocol.Inv, Protocol.Evolves;
  }

  lemma InsertedStays(s: State, s': State, n: nat, assignment: Assignment)
    requires Asked(s.core, s'.core, Some(AssignmentRow(n))) && n !in s.assignments && assignment.deployment.None?
    requires s'.assignments == s.assignments[n := assignment]
    requires AssignmentRow(n) in s'.core.life && s'.core.life[AssignmentRow(n)].action == Creating
    ensures KnownStays(s, s')
  {
    hide Protocol.Inv, Protocol.Evolves;
  }

  lemma PutAssignmentStays(s: State, i: nat, t: nat)
    requires Protocol.Inv(s.core) && Keyed(s)
    ensures KnownStays(s, TR.PutAssignment(s, i, t).0)
  {
    var s', n := TR.PutAssignment(s, i, t).0, s.core.nextId;
    if s' != s {
      Homes.AssignmentsBelow(s);
      hide TR.PutAssignment, Protocol.Inv, Keyed, TR.FindAssignment, AssignmentTarget, Asked, KnownStays;
      PutAssignmentWaits(s, i, t);
      PutAssignmentCreates(s, i, t);
      PutAssignmentAsks(s, i, t);
      InsertedStays(s, s', n, Assignment(t, i, None));
    }
  }

  lemma DropAssignmentStays(s: State, i: nat, t: nat)
    requires Protocol.Inv(s.core)
    ensures KnownStays(s, TR.DeleteAssignment(s, i, t).0)
  {
    DropAssignmentAsks(s, i, t);
    DropAssignmentWaits(s, i, t);
    Homes.DropAssignmentDeletes(s, i, t);
    hide TR.DeleteAssignment, Protocol.Inv, Protocol.Evolves, TR.FindAssignment, AssignmentTarget;
  }

  lemma PutAssignmentCreates(s: State, i: nat, t: nat)
    ensures var s', k := TR.PutAssignment(s, i, t).0, AssignmentRow(s.core.nextId);
            s' == s || (k in s'.core.life && s'.core.life[k].action == Creating && AssignmentTarget(s, i, t) == k)
  {
    hide TR.FindAssignment, TR.ConsistentJob, TR.MutationRefusal;
  }
}
