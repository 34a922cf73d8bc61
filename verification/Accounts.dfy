/** The cleanup deletes only accounts of departing members. No hypothesis is needed: taking members late
    changes their status only, and while a cleanup is current nothing else about its members changes. */
module Accounts {
  import opened Records
  import opened Execution
  import opened Store
  import opened Events
  import opened Frames
  import opened Soundness
  import opened Tables
  import opened Asks
  import opened Coverage
  import opened System
  import Protocol
  import Runs
  import WorkerSteps
  import U = UpdateSteps
  import D = TeardownSteps
  import T = TemplateSteps
  import W = WorkspaceSteps

  ghost predicate Expects(s: State, c: Claim)
    requires c in s.workers
  {
    s.workers[c].CleanupRead? ==> AllExpected(s.members, Id(c), s.workers[c].claimed, s.workers[c].expected)
  }

  /** Every current cleanup expects each member that it has not claimed for deletion. */
  ghost predicate Expecting(s: State) {
    forall c <- s.workers | Owned(s.core, c) :: Expects(s, c)
  }

  // ---------- the members of one instance ----------

  /** Members may go, and those that stay may change their status. */
  ghost predicate StatusOnly(members: Members, members': Members, i: nat) {
    forall m <- members' | members'[m].instance == i :: m in members && members'[m] == members[m].(status := members'[m].status)
  }

  lemma StatusOnlyExpects(members: Members, members': Members, i: nat, claimed: set<nat>, expected: set<string>)
    requires StatusOnly(members, members', i) && AllExpected(members, i, claimed, expected)
    ensures AllExpected(members', i, claimed, expected)
  {}

  lemma TouchedStatusOnly(s: State, s': State, d: Claim, i: nat)
    requires MembersTouched(s, s', d)
    ensures StatusOnly(s.members, s'.members, i)
  {
    hide Owned, Id, U.Unsettled, U.Reconciled, U.Held, U.Claimed, DeferExecution, FailExecution;
  }

  lemma FrozenStatusOnly(members: Members, members': Members, i: nat)
    requires Frozen(members, members', i)
    ensures StatusOnly(members, members', i)
  {}

  lemma SettledStatusOnly(members: Members, i: nat, claimed: set<nat>, j: nat)
    ensures StatusOnly(members, U.Settle(members, i, claimed), j)
  {}

  lemma FewerStatusOnly(members: Members, gone: set<nat>, i: nat)
    ensures StatusOnly(members, members - gone, i)
  {}

  // ---------- every event ----------

  /** A cleanup that has read its members read them before, or right now. */
  ghost predicate CleanupsRead(s: State, s': State) {
    forall c <- s'.workers | s'.workers[c].CleanupRead? ::
      c in s.workers && (s'.workers[c] == s.workers[c] || Expects(s', c))
  }

  lemma SameWorkers(s: State, s': State)
    requires s'.workers == s.workers
    ensures CleanupsRead(s, s')
  {}

  lemma PlainReads(s: State, s': State, d: Claim)
    requires d in s.workers && OnlyWorker(s, s', d) && LocalMoves(s, s', d)
    ensures CleanupsRead(s, s')
  {
    forall c | c in s'.workers && s'.workers[c].CleanupRead? ensures c in s.workers && (s'.workers[c] == s.workers[c] || Expects(s', c)) {
      if c == d { ReconciledAreClaimed(s.members, Id(d)); }
      hide AllExpected, AllClaimed, U.ExpectedNames, U.Reconciled, U.SetStatus, Id;
    }
  }

  /** What one event does, seen from the current cleanups. */
  ghost predicate Minds(s: State, s': State) {
    && CleanupsRead(s, s')
    && forall c <- s.workers | Owned(s.core, c) && c.step == CleanupUsers :: StatusOnly(s.members, s'.members, Id(c))
  }

  lemma PlainMinds(s: State, s': State, d: Claim)
    requires d in s.workers && Plain(s, s', d)
    ensures Minds(s, s')
  {
    assert OnlyWorker(s, s', d) && LocalMoves(s, s', d) && MembersTouched(s, s', d);
    hide Plain, Owned, MembersTouched, OnlyWorker, LocalMoves, Id, StatusOnly, CleanupsRead;
    PlainReads(s, s', d);
    forall i ensures StatusOnly(s.members, s'.members, i) { TouchedStatusOnly(s, s', d, i); }
  }

  lemma DeletingMinds(s: State, d: Claim, act: Act)
    requires Sound(s) && d in s.workers && Deletes(act)
    ensures Minds(s, DoWork(s, d, act))
  {
    hide Sound, Owned, Id, StatusOnly, CleanupsRead, U.FinalizeUpdate, D.RemoveLocal, T.RemoveAssignment, W.FinishDeleteWorkspace;
    hide D.MembersOf, D.WorkspacesOf, D.AssignmentsOf, U.Settle, U.Orphans, T.PairWorkspaces, DeleteRows, CompleteAndDelete, CompleteExecution, RequestJob;
    var s' := DoWork(s, d, act);
    forall i ensures StatusOnly(s.members, s.members, i) { SameShrinks(s.members, i); FrozenStatusOnly(s.members, s.members, i); }
    SameWorkers(s, s);
    if s' != s {
      if act.Update? {
        FinalizeRestages(s, d);
        FinalizeMoves(s, d);
        forall i ensures StatusOnly(s.members, s'.members, i) { SettledStatusOnly(s.members, Id(d), s.workers[d].claimed, i); }
      } else if act.Teardown? {
        RemoveLocalMoves(s, d);
        forall i ensures StatusOnly(s.members, s'.members, i) { FewerStatusOnly(s.members, D.MembersOf(s, Id(d)), i); }
      } else if act.OfTemplate? {
        RemoveAssignmentMoves(s, d);
      } else {
        FinishDeleteWorkspaceMoves(s, d);
      }
      SameWorkers(s, s');
    }
  }

  lemma WorkMinds(s: State, d: Claim, act: Act)
    requires Sound(s)
    ensures Minds(s, DoWork(s, d, act))
  {
    hide Sound, Plain, DoWork, Minds;
    if d !in s.workers {
      StrangersStutter(s, d, act);
      StutterMinds(s, s);
    } else if Deletes(act) {
      DeletingMinds(s, d, act);
    } else {
      WorkIsPlain(s, d, act);
      PlainMinds(s, DoWork(s, d, act), d);
    }
  }

  lemma StutterMinds(s: State, s': State)
    requires s'.members == s.members && s'.workers == s.workers
    ensures Minds(s, s')
  {
    hide Owned, Id;
  }

  lemma RedeliveryMinds(s: State, s': State)
    requires Redelivers(s, s')
    ensures Minds(s, s')
  {
    hide Owned, Id, CoreRedelivers, Begins;
  }

  lemma InstanceRequestMinds(s: State, r: InstanceRequest)
    requires Sound(s) && Keyed(s)
    ensures Minds(s, AnswerInstance(s, r).0)
  {
    FreshMember(s);
    hide Sound, Keyed, AnswerInstance, MembersAsked, Frozen, Owned, Id, Asked, StatusOnly, CleanupsRead;
    var s' := AnswerInstance(s, r).0;
    InstanceRequestMembers(s, r);
    InstanceRequestFields(s, r);
    SameWorkers(s, s');
    forall c | c in s.workers && Owned(s.core, c) && c.step == CleanupUsers ensures StatusOnly(s.members, s'.members, Id(c)) {
      CleaningIsFrozen(s, s', InstanceOf(s, r), c);
      FrozenStatusOnly(s.members, s'.members, Id(c));
    }
  }

  lemma FreshMember(s: State)
    requires Keyed(s)
    ensures s.core.nextId !in s.members
  {
    hide InstanceRows, TemplateRows, AssignmentRows, WorkspaceRows, Allocated, Below;
  }

  lemma AnswerMinds(s: State, request: Request)
    requires Sound(s) && Keyed(s)
    ensures Minds(s, Answer(s, request).0)
  {
    hide Sound, Keyed, AnswerInstance, AnswerTemplate, AnswerWorkspace, Asked, TemplateTarget, WorkspaceTarget, Minds;
    match request
    case ToInstance(r) => InstanceRequestMinds(s, r);
    case ToTemplate(r) =>
      TemplateRequestFields(s, r);
      StutterMinds(s, AnswerTemplate(s, r).0);
    case ToWorkspace(r) =>
      WorkspaceRequestFields(s, r);
      StutterMinds(s, AnswerWorkspace(s, r).0);
  }

  lemma ApplyMinds(s: State, e: Event)
    requires Good(s)
    ensures Minds(s, Apply(s, e))
  {
    hide Good, Sound, Keyed, Linked, LocalsFit, DoWork, Answer, WorkerSteps.Deliver, WorkerSteps.Reclaim, Redelivers, Minds;
    GoodSound(s);
    match e
    case Deliver(id, task, now) => DeliverRedelivers(s, id, task, now); RedeliveryMinds(s, Apply(s, e));
    case Reclaim(id, staleBefore) => ReclaimRedelivers(s, id, staleBefore); RedeliveryMinds(s, Apply(s, e));
    case Work(c, act) => WorkMinds(s, c, act);
    case Ask(request) => AnswerMinds(s, request);
  }

  // ---------- every run ----------

  lemma MindingExpects(s: State, s': State)
    requires Protocol.Inv(s.core) && Protocol.Inv(s'.core) && Protocol.Evolves(s.core, s'.core) && s.workers.Keys == s.core.claims
    requires LocalsFit(s.workers) && Minds(s, s') && Expecting(s)
    ensures Expecting(s')
  {
    hide Owned, Id, Protocol.Inv, Protocol.Evolves, AllExpected, StatusOnly, Fits;
    forall c | c in s'.workers && Owned(s'.core, c) ensures Expects(s', c) {
      if s'.workers[c].CleanupRead? && s'.workers[c] == s.workers[c] {
        Runs.OwnershipIsNotRegained(s.core, s'.core, c);
        assert Expects(s, c) && c.step == CleanupUsers by { ReadsAtCleanup(s, c); }
        StatusOnlyExpects(s.members, s'.members, Id(c), s.workers[c].claimed, s.workers[c].expected);
      }
    }
  }

  lemma ReadsAtCleanup(s: State, c: Claim)
    requires LocalsFit(s.workers) && c in s.workers && s.workers[c].CleanupRead?
    ensures c.step == CleanupUsers
  {
    assert Fits(c.step, s.workers[c]);
  }

  lemma SoundCore(s: State)
    requires Sound(s)
    ensures Protocol.Inv(s.core) && s.workers.Keys == s.core.claims
  {
    hide Protocol.Inv;
  }

  lemma {:induction false} RunExpects(s: State, events: seq<Event>)
    requires Good(s) && Expecting(s)
    ensures Good(Run(s, events)) && Expecting(Run(s, events))
    decreases |events|
  {
    hide Good, Expecting, Apply, Minds, Sound, Protocol.Inv, Keyed, Linked, LocalsFit, Protocol.Evolves;
    if events != [] {
      var s' := Apply(s, events[0]);
      ApplyKeepsGood(s, events[0]);
      ApplyEvolves(s, events[0]);
      GoodSound(s);
      GoodSound(s');
      ApplyMinds(s, events[0]);
      SoundCore(s);
      SoundCore(s');
      MindingExpects(s, s');
      RunExpects(s', events[1..]);
    }
  }

  /** Over every run, the cleanup deletes only accounts whose every member of that name is being deleted and
      was claimed by this attempt: none of a member that stays, and none of a deletion queued later. */
  lemma CleanupDeletesOnlyDepartures(events: seq<Event>, c: Claim, username: string, now: int, m: nat)
    requires var s := Run(START, events);
             && U.DeleteAccount(s, c, username, now) != s && m in s.members
             && s.members[m].instance == Id(c) && s.members[m].username == username
    ensures var s := Run(START, events);
            c in s.workers && s.workers[c].CleanupRead? && s.members[m].action == Deleting && m in s.workers[c].claimed
  {
    hide Good, Expecting, Run, U.DeleteAccount, Id;
    StartIsGood();
    assert Expecting(START) by { NobodyExpects(); }
    RunExpects(START, events);
    DeletesDeparted(Run(START, events), c, username, now, m);
  }

  lemma NobodyExpects()
    ensures Expecting(START)
  {}

  lemma DeletesDeparted(s: State, c: Claim, username: string, now: int, m: nat)
    requires Expecting(s) && U.DeleteAccount(s, c, username, now) != s
    requires m in s.members && s.members[m].instance == Id(c) && s.members[m].username == username
    ensures c in s.workers && s.workers[c].CleanupRead? && s.members[m].action == Deleting && m in s.workers[c].claimed
  {
    assert c in s.workers && Owned(s.core, c) && Expects(s, c);
    hide Owned, HeartbeatExecution, Id;
  }
}
