/** Two runs from the empty database in which a worker whose attempt was reclaimed takes the members late.
    In both a member is added after the current attempt read the policy, and the stale worker marks it
    running. In the first run it does so before the cleanup, which settles the member although no accepted
    policy ever named it. In the second it does so during the cleanup, and the update ends in success while
    the member stays behind. */
module StaleClaim {
  import opened Records
  import opened Execution
  import opened Store
  import opened Events
  import opened Coverage
  import System
  import Theorems
  import Soundness
  import Frames
  import Tables
  import Placement
  import K = WorkerSteps
  import C = CreateSteps
  import U = UpdateSteps
  import IR = InstanceRequests
  import WR = WorkspaceRequests

  // ---------- runs, piece by piece ----------

  /** A careful run from one state to another. */
  ghost predicate Leads(s: State, events: seq<Event>, end: State) {
    Run(s, events) == end && Theorems.CarefulRun(s, events)
  }

  lemma Stays(s: State)
    ensures Leads(s, [], s)
  {}

  lemma Step(s: State, e: Event, next: State, rest: seq<Event>, end: State)
    requires Apply(s, e) == next && Theorems.CarefulEvent(s, e) && Leads(next, rest, end)
    ensures Leads(s, [e] + rest, end)
  {
    assert ([e] + rest)[0] == e && ([e] + rest)[1..] == rest;
    hide Apply, Theorems.CarefulEvent;
  }

  lemma {:induction false} Joins(s: State, before: seq<Event>, mid: State, after: seq<Event>, end: State)
    requires Leads(s, before, mid) && Leads(mid, after, end)
    ensures Leads(s, before + after, end)
    decreases |before|
  {
    hide Apply, Theorems.CarefulEvent;
    if before == [] {
      assert before + after == after;
    } else {
      var e, rest := before[0], before[1..];
      assert before + after == [e] + (rest + after);
      assert ([e] + (rest + after))[0] == e && ([e] + (rest + after))[1..] == rest + after;
      Joins(Apply(s, e), rest, mid, after, end);
    }
  }

  // ---------- the instance is created ----------

  const ROW := InstanceRow(1)

  function Setup(step: Records.Step, status: Status, attempt: nat, claimedAt: Option<int>, claims: set<Claim>, instance: Instance,
                 workers: map<Claim, Local>, secrets: map<nat, string>, log: seq<Fact>): State {
    State(Core(map[2 := Job(InstanceCreate, step, Some(ROW), step, status, attempt, claimedAt)],
               map[ROW := Life(Creating, status, Some(2), if status == Success then None else Some(step))], claims, 3),
          map[1 := instance], map[], map[], map[], map[], map[0 := Database(1, 0)], map[1 := 0], workers, secrets, log)
  }

  function Creator(step: Records.Step, attempt: nat): Claim {
    Claim(2, step, step, attempt, Some(ROW))
  }

  const T1 := Creator(Records.CreateSchema, 1)
  const T2 := Creator(Records.CreateInstance, 2)
  const T3 := Creator(BootstrapAdmin, 3)

  const NEW := Instance(None, None, None, false, false)
  const NAMED := Instance(None, None, Some("a"), true, false)
  const OFFERED := NAMED.(candidate := Some("p"))
  const READY := NAMED.(password := Some("p"))

  const POOL := START.(core := Core(map[], map[], {}, 1), databases := map[0 := Database(1, 0)])
  const P2 := Setup(Records.CreateSchema, Pending, 0, None, {}, NEW, map[], map[], [])
  const P3 := Setup(Records.CreateSchema, Running, 1, Some(0), {} + {T1}, NEW, map[T1 := Started], map[], [])
  const P4 := Setup(Records.CreateInstance, Pending, 1, None, {} + {T1}, NEW, map[T1 := Started], map[], [])
  const P5 := Setup(Records.CreateInstance, Running, 2, Some(1), {} + {T1} + {T2}, NEW, map[T1 := Started][T2 := Started], map[], [])
  const P6 := Setup(BootstrapAdmin, Pending, 2, None, {} + {T1} + {T2}, NAMED, map[T1 := Started][T2 := Started], map[], [])
  const P7 := Setup(BootstrapAdmin, Running, 3, Some(2), CREATORS, NAMED, Workers(Started), map[], [])
  const P8 := Setup(BootstrapAdmin, Running, 3, Some(2), CREATORS, OFFERED, Workers(BootstrapRead(Some("p"))), map[1 := "p"], [])
  const P9 := Setup(BootstrapAdmin, Running, 3, Some(2), CREATORS, OFFERED, Workers(BootstrapDone), map[1 := "p"], SENT)
  /** One ready instance at rest, without members. */
  const QUIET := Setup(BootstrapAdmin, Success, 3, None, CREATORS, READY, Workers(BootstrapDone), map[1 := "p"], SENT)

  const CREATORS: set<Claim> := {} + {T1} + {T2} + {T3}
  const SENT := [SentBootstrap(1, "p")]

  function Workers(last: Local): map<Claim, Local> {
    map[T1 := Started][T2 := Started][T3 := last]
  }

  const S1 := Ask(ToWorkspace(AddDatabase(1, 0)))
  const S2 := Ask(ToInstance(AddInstance(true)))
  const S3 := Event.Deliver(2, Records.CreateSchema, 0)
  const S4 := Event.Work(T1, Create(FinishSchema))
  const S5 := Event.Deliver(2, Records.CreateInstance, 1)
  const S6 := Event.Work(T2, Create(FinishApplication("a")))
  const S7 := Event.Deliver(2, BootstrapAdmin, 2)
  const S8 := Event.Work(T3, Create(PrepareBootstrap("p")))
  const S9 := Event.Work(T3, Create(SendBootstrap))
  const S10 := Event.Work(T3, Create(FinishBootstrap))

  lemma AddsDatabase()
    ensures WR.CreateDatabase(START, 1, 0).0 == POOL
  {}

  lemma Places()
    ensures Placement.Place(POOL.databases, POOL.allocations) == Some(0)
  {
    assert Placement.Users(map[], 0) == {};
    assert Placement.IsChoice(POOL.databases, POOL.allocations, 0);
  }

  lemma AddsInstance()
    ensures IR.CreateInstance(POOL, true).0 == P2
  {
    Places();
    hide Placement.Place;
  }

  lemma DeliversCreate()
    ensures K.Deliver(P2, 2, Records.CreateSchema, 0) == P3
  {}

  lemma Creates()
    ensures C.FinishSchema(P3, T1) == P4
  {
    assert Owned(P3.core, T1) && AdvanceExecution(P3.core, T1, Records.CreateInstance) == P4.core;
    hide Owned, AdvanceExecution;
  }

  lemma DeliversInstall()
    ensures K.Deliver(P4, 2, Records.CreateInstance, 1) == P5
  {}

  lemma Installs()
    ensures C.FinishApplication(P5, T2, "a") == P6
  {
    assert Owned(P5.core, T2) && AdvanceExecution(P5.core, T2, BootstrapAdmin) == P6.core;
    hide Owned, AdvanceExecution;
  }

  lemma DeliversBootstrap()
    ensures K.Deliver(P6, 2, BootstrapAdmin, 2) == P7
  {}

  lemma Bootstraps()
    ensures C.PrepareBootstrap(P7, T3, "p") == P8
  {
    assert Owned(P7.core, T3);
    hide Owned;
  }

  lemma Sends()
    ensures C.SendBootstrap(P8, T3) == P9
  {}

  lemma Promotes()
    ensures C.FinishBootstrap(P9, T3) == QUIET
  {
    assert Owned(P9.core, T3) && CompleteExecution(P9.core, T3, None) == QUIET.core;
    hide Owned, CompleteExecution, AdvanceExecution;
  }

  const SETUP := [S1] + ([S2] + ([S3] + ([S4] + ([S5] + ([S6] + ([S7] + ([S8] + ([S9] + ([S10] + [])))))))))

  lemma SetupSteps()
    ensures Apply(START, S1) == POOL && Apply(POOL, S2) == P2 && Apply(P2, S3) == P3 && Apply(P3, S4) == P4 && Apply(P4, S5) == P5
    ensures Apply(P5, S6) == P6 && Apply(P6, S7) == P7 && Apply(P7, S8) == P8 && Apply(P8, S9) == P9 && Apply(P9, S10) == QUIET
  {
    AddsDatabase(); AddsInstance(); DeliversCreate(); Creates(); DeliversInstall(); Installs(); DeliversBootstrap(); Bootstraps(); Sends(); Promotes();
    hide WR.CreateDatabase, IR.CreateInstance, K.Deliver, C.FinishSchema, C.FinishApplication, C.PrepareBootstrap, C.SendBootstrap;
    hide C.FinishBootstrap, Setup, Workers;
  }

  lemma BecomesReady()
    ensures Leads(START, SETUP, QUIET)
  {
    hide Apply, Leads, Setup, Workers;
    SetupSteps();
    Stays(QUIET);
    Step(P9, S10, QUIET, [], QUIET);
    Step(P8, S9, P9, [S10] + [], QUIET);
    Step(P7, S8, P8, [S9] + ([S10] + []), QUIET);
    Step(P6, S7, P7, [S8] + ([S9] + ([S10] + [])), QUIET);
    Step(P5, S6, P6, [S7] + ([S8] + ([S9] + ([S10] + []))), QUIET);
    Step(P4, S5, P5, [S6] + ([S7] + ([S8] + ([S9] + ([S10] + [])))), QUIET);
    Step(P3, S4, P4, [S5] + ([S6] + ([S7] + ([S8] + ([S9] + ([S10] + []))))), QUIET);
    Step(P2, S3, P3, [S4] + ([S5] + ([S6] + ([S7] + ([S8] + ([S9] + ([S10] + [])))))), QUIET);
    Step(POOL, S2, P2, [S3] + ([S4] + ([S5] + ([S6] + ([S7] + ([S8] + ([S9] + ([S10] + []))))))), QUIET);
    Step(START, S1, POOL, [S2] + ([S3] + ([S4] + ([S5] + ([S6] + ([S7] + ([S8] + ([S9] + ([S10] + [])))))))), QUIET);
  }

  // ---------- an update begins, and a member joins it late ----------

  function Updater(step: Records.Step, attempt: nat): Claim {
    Claim(4, step, step, attempt, Some(ROW))
  }

  const STALE := Updater(Records.UpdateInstance, 1)
  const CURRENT := Updater(Records.UpdateInstance, 2)
  const CLEANER := Updater(CleanupUsers, 3)

  const ONE := CREATORS + {STALE}
  const TWO := CREATORS + {STALE} + {CURRENT}
  const ALL := CREATORS + {STALE} + {CURRENT} + {CLEANER}

  function Ann(status: Status): Member { Member(1, "ann", User, Creating, status) }
  function Bob(status: Status): Member { Member(1, "bob", User, Creating, status) }

  const ANN: set<(string, Role)> := {("ann", User)}
  const BOTH: set<(string, Role)> := {("ann", User), ("bob", User)}
  const TOLD := SENT + [AcceptedPolicy(4, ANN)]

  function Moment(step: Records.Step, status: Status, attempt: nat, claimedAt: Option<int>, claims: set<Claim>, nextId: nat,
                  members: map<nat, Member>, workers: map<Claim, Local>, log: seq<Fact>): State {
    QUIET.(core := Core(QUIET.core.jobs[4 := Job(InstanceUpdate, step, Some(ROW), step, status, attempt, claimedAt)],
                        map[ROW := Life(Updating, status, Some(4), if status == Success then None else Some(step))], claims, nextId),
           members := members, workers := workers, log := log)
  }

  function Two(stale: Local, current: Local): map<Claim, Local> {
    QUIET.workers[STALE := stale][CURRENT := current]
  }

  const ADDED := Moment(Records.UpdateInstance, Pending, 0, None, CREATORS, 5, map[3 := Ann(Pending)], QUIET.workers, SENT)
  const TAKEN := Moment(Records.UpdateInstance, Running, 1, Some(3), ONE, 5, map[3 := Ann(Pending)], QUIET.workers[STALE := Started], SENT)
  const RECLAIMED := Moment(Records.UpdateInstance, Pending, 1, None, ONE, 5, map[3 := Ann(Pending)], QUIET.workers[STALE := Started], SENT)
  const RETAKEN := Moment(Records.UpdateInstance, Running, 2, Some(4), TWO, 5, map[3 := Ann(Pending)], Two(Started, Started), SENT)
  const READ := Moment(Records.UpdateInstance, Running, 2, Some(4), TWO, 5, map[3 := Ann(Running)], Two(Started, PolicyRead({3}, ANN)), SENT)
  const ACCEPTED := Moment(Records.UpdateInstance, Running, 2, Some(4), TWO, 5, map[3 := Ann(Running)],
                           Two(Started, PolicyAccepted({3}, ANN)), TOLD)
  const JOINED := Moment(Records.UpdateInstance, Running, 2, Some(4), TWO, 6, map[3 := Ann(Running)][5 := Bob(Pending)],
                         Two(Started, PolicyAccepted({3}, ANN)), TOLD)

  const E1 := Ask(ToInstance(AddMember(1, "ann", User)))
  const E2 := Event.Deliver(4, Records.UpdateInstance, 3)
  const E3 := Event.Reclaim(4, 3)
  const E4 := Event.Deliver(4, Records.UpdateInstance, 4)
  const E5 := Event.Work(CURRENT, Update(ClaimMembers))
  const E6 := Event.Work(CURRENT, Update(AcceptPolicy))
  const E7 := Ask(ToInstance(AddMember(1, "bob", User)))

  lemma AddsAnn()
    ensures IR.CreateMember(QUIET, 1, "ann", User).0 == ADDED
  {
    assert !IR.UsernameTaken(QUIET.members, 1, "ann");
    assert !IR.HasActiveAssignment(QUIET, 1);
  }

  lemma Delivers()
    ensures K.Deliver(ADDED, 4, Records.UpdateInstance, 3) == TAKEN
  {}

  lemma Reclaims()
    ensures K.Reclaim(TAKEN, 4, 3) == RECLAIMED
  {}

  lemma Redelivers()
    ensures K.Deliver(RECLAIMED, 4, Records.UpdateInstance, 4) == RETAKEN
  {}

  lemma FirstTake()
    ensures var members := map[3 := Ann(Pending)];
            && U.Unsettled(members, 1) == {3} && U.SetStatus(members, {3}, Running) == map[3 := Ann(Running)]
            && U.PolicyOf(members, 1) == ANN
  {}

  lemma Takes5()
    ensures U.ClaimMembers(RETAKEN, CURRENT) == READ
  {
    FirstTake();
    assert Id(CURRENT) == 1;
    hide U.Unsettled, U.SetStatus, U.PolicyOf, Id;
  }

  lemma Accepts()
    ensures U.AcceptPolicy(READ, CURRENT) == ACCEPTED
  {
    assert Id(CURRENT) == 1;
    hide Id;
  }

  lemma AddsBob()
    ensures IR.CreateMember(ACCEPTED, 1, "bob", User).0 == JOINED
  {
    assert !IR.UsernameTaken(ACCEPTED.members, 1, "bob");
    assert !IR.HasActiveAssignment(ACCEPTED, 1);
  }

  lemma UpdateBegins()
    ensures Apply(QUIET, E1) == ADDED && Apply(ADDED, E2) == TAKEN && Apply(TAKEN, E3) == RECLAIMED && Apply(RECLAIMED, E4) == RETAKEN
    ensures Apply(RETAKEN, E5) == READ && Apply(READ, E6) == ACCEPTED && Apply(ACCEPTED, E7) == JOINED
  {
    AddsAnn(); Delivers(); Reclaims(); Redelivers(); Takes5(); Accepts(); AddsBob();
    hide IR.CreateMember, K.Deliver, K.Reclaim, U.ClaimMembers, U.AcceptPolicy, Moment;
  }

  const BEFORE := [E1] + ([E2] + ([E3] + ([E4] + [])))
  const UPDATE := [E5] + ([E6] + ([E7] + []))

  lemma ReachesRetaken()
    ensures Leads(START, SETUP + BEFORE, RETAKEN)
  {
    hide Apply, Leads, Moment, Setup, Workers;
    UpdateBegins();
    Stays(RETAKEN);
    Step(RECLAIMED, E4, RETAKEN, [], RETAKEN);
    Step(TAKEN, E3, RECLAIMED, [E4] + [], RETAKEN);
    Step(ADDED, E2, TAKEN, [E3] + ([E4] + []), RETAKEN);
    Step(QUIET, E1, ADDED, [E2] + ([E3] + ([E4] + [])), RETAKEN);
    BecomesReady();
    Joins(START, SETUP, QUIET, BEFORE, RETAKEN);
  }

  /** The current attempt takes the members without harm. */
  lemma CurrentIsCareful()
    ensures Theorems.CarefulEvent(RETAKEN, E5)
  {
    hide System.Good, Harmless, Run, Theorems.CarefulRun, SETUP, BEFORE;
    ReachesRetaken();
    System.ReachableIsGood(SETUP + BEFORE);
    System.GoodSound(RETAKEN);
    CurrentTakes();
    hide Takes, Owned, Id, Frames.Sound, Frames.LocalsFit, Tables.Keyed, Tables.Linked, Moment;
    CurrentIsHarmless(RETAKEN, CURRENT);
  }

  lemma CurrentTakes()
    ensures Owned(RETAKEN.core, CURRENT) && Takes(RETAKEN, CURRENT)
  {}

  lemma ReachesJoined()
    ensures Leads(START, SETUP + BEFORE + UPDATE, JOINED)
  {
    hide Apply, Leads, Moment, Setup, Workers, Theorems.CarefulEvent;
    UpdateBegins();
    CurrentIsCareful();
    assert Theorems.CarefulEvent(READ, E6) && Theorems.CarefulEvent(ACCEPTED, E7) by { Calm(READ, E6); Calm(ACCEPTED, E7); }
    Stays(JOINED);
    Step(ACCEPTED, E7, JOINED, [], JOINED);
    Step(READ, E6, ACCEPTED, [E7] + [], JOINED);
    Step(RETAKEN, E5, READ, [E6] + ([E7] + []), JOINED);
    ReachesRetaken();
    Joins(START, SETUP + BEFORE, RETAKEN, UPDATE, JOINED);
  }

  /** Events other than taking the members are careful. */
  lemma Calm(s: State, e: Event)
    ensures !(e.Work? && e.act == Update(ClaimMembers)) ==> Theorems.CarefulEvent(s, e)
  {}

  // ---------- the first run: the stale worker comes before the cleanup ----------

  const LATE := Event.Work(STALE, Update(ClaimMembers))

  const GRABBED := map[3 := Ann(Running)][5 := Bob(Running)]

  const STOLEN := Moment(Records.UpdateInstance, Running, 2, Some(4), TWO, 6, GRABBED,
                         Two(PolicyRead({3, 5}, BOTH), PolicyAccepted({3}, ANN)), TOLD)
  const ADVANCED := Moment(CleanupUsers, Pending, 2, None, TWO, 6, GRABBED,
                           Two(PolicyRead({3, 5}, BOTH), PolicyAccepted({3}, ANN)), TOLD)

  function Three(stale: Local, cleaner: Local): map<Claim, Local> {
    Two(stale, PolicyAccepted({3}, ANN))[CLEANER := cleaner]
  }

  const CLEANING := Moment(CleanupUsers, Running, 3, Some(5), ALL, 6, GRABBED, Three(PolicyRead({3, 5}, BOTH), Started), TOLD)
  const CLAIMED := Moment(CleanupUsers, Running, 3, Some(5), ALL, 6, GRABBED,
                          Three(PolicyRead({3, 5}, BOTH), CleanupRead({3, 5}, {"ann", "bob"}, "a")), TOLD)
  const CLEANED := Moment(CleanupUsers, Running, 3, Some(5), ALL, 6, GRABBED,
                          Three(PolicyRead({3, 5}, BOTH), CleanupDone({3, 5}, "a")), TOLD)
  const ENDED := Moment(CleanupUsers, Success, 3, None, ALL, 6, map[3 := Ann(Success)][5 := Bob(Success)],
                        Three(PolicyRead({3, 5}, BOTH), CleanupDone({3, 5}, "a")), TOLD)

  const E9 := Event.Work(CURRENT, Update(FinishPolicy("a")))
  const E10 := Event.Deliver(4, CleanupUsers, 5)
  const E11 := Event.Work(CLEANER, Update(ClaimCleanup))
  const E12 := Event.Work(CLEANER, Update(FinishCleanup))
  const E13 := Event.Work(CLEANER, Update(FinalizeUpdate))
  const REST := [E9] + ([E10] + ([E11] + ([E12] + ([E13] + []))))

  lemma LateTake()
    ensures var members := map[3 := Ann(Running)][5 := Bob(Pending)];
            && U.Unsettled(members, 1) == {3, 5} && U.SetStatus(members, {3, 5}, Running) == GRABBED
            && U.PolicyOf(members, 1) == BOTH
  {}

  lemma Steals()
    ensures U.ClaimMembers(JOINED, STALE) == STOLEN
  {
    LateTake();
    assert Id(STALE) == 1;
    assert Two(Started, PolicyAccepted({3}, ANN))[STALE := PolicyRead({3, 5}, BOTH)]
        == Two(PolicyRead({3, 5}, BOTH), PolicyAccepted({3}, ANN));
    hide U.Unsettled, U.SetStatus, U.PolicyOf, Id, Ann, Bob;
  }

  lemma Advances()
    ensures U.FinishPolicy(STOLEN, CURRENT, "a") == ADVANCED
  {
    hide Id, Owned, AdvanceExecution, Moment, Two;
    AdvanceFacts();
  }

  lemma AdvanceFacts()
    ensures Id(CURRENT) == 1 && Owned(STOLEN.core, CURRENT) && AdvanceExecution(STOLEN.core, CURRENT, CleanupUsers) == ADVANCED.core
    ensures CURRENT in STOLEN.workers && STOLEN.workers[CURRENT].PolicyAccepted? && 1 in STOLEN.instances
    ensures ADVANCED == STOLEN.(core := ADVANCED.core, instances := STOLEN.instances[1 := STOLEN.instances[1].(argoName := Some("a"), started := true)])
  {
    hide Owned, AdvanceExecution;
    AdvancesCore();
  }

  lemma AdvancesCore()
    ensures Owned(STOLEN.core, CURRENT) && AdvanceExecution(STOLEN.core, CURRENT, CleanupUsers) == ADVANCED.core
  {}

  lemma DeliversCleanup()
    ensures K.Deliver(ADVANCED, 4, CleanupUsers, 5) == CLEANING
  {}

  lemma CleanupTake()
    ensures U.Reconciled(GRABBED, 1) == {3, 5} && U.SetStatus(GRABBED, {3, 5}, Running) == GRABBED
    ensures U.ExpectedNames(GRABBED, 1, {3, 5}) == {"ann", "bob"}
  {}

  lemma Claims11()
    ensures U.ClaimCleanup(CLEANING, CLEANER) == CLAIMED
  {
    CleanupTake();
    assert Id(CLEANER) == 1;
    hide U.Reconciled, U.SetStatus, U.ExpectedNames, Id, Ann, Bob;
  }

  lemma Cleans()
    ensures U.FinishCleanup(CLAIMED, CLEANER) == CLEANED
  {
    assert Id(CLEANER) == 1;
    hide Id;
  }

  lemma CleanerOwns()
    ensures Owned(CLEANED.core, CLEANER) && CompleteExecution(CLEANED.core, CLEANER, None) == ENDED.core
  {}

  lemma AllSettle()
    ensures var members := map[3 := Ann(Success)][5 := Bob(Success)];
            U.Settle(GRABBED, 1, {3, 5}) == members && !U.PendingMember(members, 1) && U.Orphans(CLEANED, members) == {}
  {}

  lemma Ends()
    ensures U.FinalizeUpdate(CLEANED, CLEANER) == ENDED
  {
    hide U.Settle, U.PendingMember, U.Orphans, Id, Owned, CompleteExecution, DeleteRows, RequestJob, K.WorkspaceRows, Moment;
    CleanedIs();
    CleanerOwns();
    AllSettle();
    CleanerId();
    Soundness.DeleteNothing(ENDED.core);
  }

  lemma CleanerId()
    ensures Id(CLEANER) == 1 && K.WorkspaceRows({}) == {}
  {}

  lemma CleanedIs()
    ensures CLEANER in CLEANED.workers && CLEANED.workers[CLEANER] == CleanupDone({3, 5}, "a") && CLEANED.members == GRABBED
    ensures 1 in CLEANED.instances && CLEANED.instances[1].argoName == Some("a") && CLEANED.workspaces == map[]
    ensures ENDED == CLEANED.(core := ENDED.core, members := map[3 := Ann(Success)][5 := Bob(Success)])
  {}

  lemma RestSteps()
    ensures Apply(JOINED, LATE) == STOLEN && Apply(STOLEN, E9) == ADVANCED && Apply(ADVANCED, E10) == CLEANING
  {
    hide K.Deliver, U.ClaimMembers, U.FinishPolicy, Moment;
    Steals(); Advances(); DeliversCleanup();
  }

  lemma LastSteps()
    ensures Apply(CLEANING, E11) == CLAIMED && Apply(CLAIMED, E12) == CLEANED && Apply(CLEANED, E13) == ENDED
  {
    hide U.ClaimCleanup, U.FinishCleanup, U.FinalizeUpdate, Moment;
    Claims11(); Cleans(); Ends();
  }

  lemma RunsOn()
    ensures Leads(STOLEN, REST, ENDED)
  {
    hide Apply, Leads, Moment;
    RestSteps();
    LastSteps();
    Stays(ENDED);
    Step(CLEANED, E13, ENDED, [], ENDED);
    Step(CLAIMED, E12, CLEANED, [E13] + [], ENDED);
    Step(CLEANING, E11, CLAIMED, [E12] + ([E13] + []), ENDED);
    Step(ADVANCED, E10, CLEANING, [E11] + ([E12] + ([E13] + [])), ENDED);
    Step(STOLEN, E9, ADVANCED, [E10] + ([E11] + ([E12] + ([E13] + []))), ENDED);
  }

  lemma KnownIsAnn()
    ensures Known(TOLD, 4) == ANN
  {
    assert TOLD[1] == AcceptedPolicy(4, ANN);
    forall entry ensures entry in Known(TOLD, 4) <==> entry in ANN {
      if entry in ANN { assert AcceptedPolicy(4, ANN) in TOLD; }
    }
  }

  lemma LateIsHarmful()
    ensures !Theorems.CarefulEvent(JOINED, LATE)
  {
    KnownIsAnn();
    assert Owned(JOINED.core, CURRENT) && Id(CURRENT) == Id(STALE) && Id(STALE) == 1;
    assert 5 in JOINED.members && JOINED.members[5] == Bob(Pending) && !Carried(Bob(Pending), ANN);
    assert CURRENT in JOINED.workers && JOINED.workers[CURRENT] == PolicyAccepted({3}, ANN);
    assert STALE in JOINED.workers && JOINED.workers[STALE] == Started;
    hide Known, Id, Owned, Moment;
    assert !Admits(JOINED, CURRENT);
  }

  /** The update is over and bob settled, yet no accepted policy carries his name. */
  predicate SettledUnnamed(s: State) {
    && 5 in s.members && s.members[5] == Member(1, "bob", User, Creating, Success)
    && ROW in s.core.life && s.core.life[ROW].status == Success
    && forall fact <- s.log :: fact.AcceptedPolicy? ==> ("bob", User) !in fact.policy
  }

  lemma EndedUnnamed()
    ensures SettledUnnamed(ENDED)
  {
    assert ("bob", User) !in ANN;
  }

  /** From the empty database, one harmful taking and nothing else careless: the update settles a member
      whom no accepted policy names. */
  lemma StaleClaimLosesAMember()
    ensures Leads(START, SETUP + BEFORE + UPDATE, JOINED)
    ensures !Theorems.CarefulEvent(JOINED, LATE) && Leads(Apply(JOINED, LATE), REST, ENDED)
    ensures SettledUnnamed(ENDED)
  {
    hide Leads, Apply, Theorems.CarefulEvent, SettledUnnamed, SETUP, BEFORE, UPDATE, REST;
    ReachesJoined();
    RestSteps();
    RunsOn();
    LateIsHarmful();
    EndedUnnamed();
  }

  // ---------- the second run: the stale worker comes during the cleanup ----------

  const WAITING := map[3 := Ann(Running)][5 := Bob(Pending)]

  const ADVANCED2 := Moment(CleanupUsers, Pending, 2, None, TWO, 6, WAITING, Two(Started, PolicyAccepted({3}, ANN)), TOLD)
  const CLEANING2 := Moment(CleanupUsers, Running, 3, Some(5), ALL, 6, WAITING, Three(Started, Started), TOLD)
  const CLAIMED2 := Moment(CleanupUsers, Running, 3, Some(5), ALL, 6, WAITING, Three(Started, CleanupRead({3}, {"ann", "bob"}, "a")), TOLD)
  const STOLEN2 := Moment(CleanupUsers, Running, 3, Some(5), ALL, 6, GRABBED,
                          Three(PolicyRead({3, 5}, BOTH), CleanupRead({3}, {"ann", "bob"}, "a")), TOLD)
  const CLEANED2 := Moment(CleanupUsers, Running, 3, Some(5), ALL, 6, GRABBED,
                           Three(PolicyRead({3, 5}, BOTH), CleanupDone({3}, "a")), TOLD)
  const ENDED2 := Moment(CleanupUsers, Success, 3, None, ALL, 6, map[3 := Ann(Success)][5 := Bob(Running)],
                         Three(PolicyRead({3, 5}, BOTH), CleanupDone({3}, "a")), TOLD)

  const MIDDLE := [E9] + ([E10] + ([E11] + []))
  const FINISH := [E12] + ([E13] + [])

  lemma Advances2()
    ensures U.FinishPolicy(JOINED, CURRENT, "a") == ADVANCED2
  {
    hide Id, Owned, AdvanceExecution, Moment, Two;
    AdvanceFacts2();
  }

  lemma AdvanceFacts2()
    ensures Id(CURRENT) == 1 && Owned(JOINED.core, CURRENT) && AdvanceExecution(JOINED.core, CURRENT, CleanupUsers) == ADVANCED2.core
    ensures CURRENT in JOINED.workers && JOINED.workers[CURRENT].PolicyAccepted? && 1 in JOINED.instances
    ensures ADVANCED2 == JOINED.(core := ADVANCED2.core, instances := JOINED.instances[1 := JOINED.instances[1].(argoName := Some("a"), started := true)])
  {
    hide Owned, AdvanceExecution;
    AdvancesCore2();
  }

  lemma AdvancesCore2()
    ensures Owned(JOINED.core, CURRENT) && AdvanceExecution(JOINED.core, CURRENT, CleanupUsers) == ADVANCED2.core
  {}

  lemma DeliversCleanup2()
    ensures K.Deliver(ADVANCED2, 4, CleanupUsers, 5) == CLEANING2
  {}

  lemma CleanupTake2()
    ensures U.Reconciled(WAITING, 1) == {3} && U.SetStatus(WAITING, {3}, Running) == WAITING
    ensures U.ExpectedNames(WAITING, 1, {3}) == {"ann", "bob"}
  {
    assert WAITING[3].username == "ann" && WAITING[5].username == "bob";
    assert forall m <- WAITING :: m == 3 || m == 5;
    assert U.SetStatus(WAITING, {3}, Running) == WAITING;
  }

  lemma Claims2()
    ensures U.ClaimCleanup(CLEANING2, CLEANER) == CLAIMED2
  {
    CleanupTake2();
    assert Id(CLEANER) == 1;
    hide U.Reconciled, U.SetStatus, U.ExpectedNames, Id, Ann, Bob;
  }

  lemma Steals2()
    ensures U.ClaimMembers(CLAIMED2, STALE) == STOLEN2
  {
    LateTake();
    assert Id(STALE) == 1;
    var cleaner := CleanupRead({3}, {"ann", "bob"}, "a");
    assert Three(Started, cleaner)[STALE := PolicyRead({3, 5}, BOTH)] == Three(PolicyRead({3, 5}, BOTH), cleaner);
    hide U.Unsettled, U.SetStatus, U.PolicyOf, Id, Ann, Bob;
  }

  lemma Cleans2()
    ensures U.FinishCleanup(STOLEN2, CLEANER) == CLEANED2
  {
    assert Id(CLEANER) == 1;
    hide Id;
  }

  lemma CleanerOwns2()
    ensures Owned(CLEANED2.core, CLEANER) && CompleteExecution(CLEANED2.core, CLEANER, None) == ENDED2.core
  {}

  lemma OneSettles()
    ensures var members := map[3 := Ann(Success)][5 := Bob(Running)];
            U.Settle(GRABBED, 1, {3}) == members && !U.PendingMember(members, 1) && U.Orphans(CLEANED2, members) == {}
  {}

  lemma Ends2()
    ensures U.FinalizeUpdate(CLEANED2, CLEANER) == ENDED2
  {
    hide U.Settle, U.PendingMember, U.Orphans, Id, Owned, CompleteExecution, DeleteRows, RequestJob, K.WorkspaceRows, Moment;
    CleanedIs2();
    CleanerOwns2();
    OneSettles();
    CleanerId();
    Soundness.DeleteNothing(ENDED2.core);
  }

  lemma CleanedIs2()
    ensures CLEANER in CLEANED2.workers && CLEANED2.workers[CLEANER] == CleanupDone({3}, "a") && CLEANED2.members == GRABBED
    ensures 1 in CLEANED2.instances && CLEANED2.instances[1].argoName == Some("a") && CLEANED2.workspaces == map[]
    ensures ENDED2 == CLEANED2.(core := ENDED2.core, members := map[3 := Ann(Success)][5 := Bob(Running)])
  {}

  lemma SecondSteps()
    ensures Apply(JOINED, E9) == ADVANCED2 && Apply(ADVANCED2, E10) == CLEANING2 && Apply(CLEANING2, E11) == CLAIMED2
  {
    hide K.Deliver, U.FinishPolicy, U.ClaimCleanup, Moment;
    Advances2(); DeliversCleanup2(); Claims2();
  }

  lemma ThirdSteps()
    ensures Apply(CLAIMED2, LATE) == STOLEN2 && Apply(STOLEN2, E12) == CLEANED2 && Apply(CLEANED2, E13) == ENDED2
  {
    hide U.ClaimMembers, U.FinishCleanup, U.FinalizeUpdate, Moment;
    Steals2(); Cleans2(); Ends2();
  }

  lemma ReachesClaimed2()
    ensures Leads(START, SETUP + BEFORE + UPDATE + MIDDLE, CLAIMED2)
  {
    hide Apply, Leads, Moment, SETUP, BEFORE, UPDATE;
    SecondSteps();
    Stays(CLAIMED2);
    Step(CLEANING2, E11, CLAIMED2, [], CLAIMED2);
    Step(ADVANCED2, E10, CLEANING2, [E11] + [], CLAIMED2);
    Step(JOINED, E9, ADVANCED2, [E10] + ([E11] + []), CLAIMED2);
    ReachesJoined();
    Joins(START, SETUP + BEFORE + UPDATE, JOINED, MIDDLE, CLAIMED2);
  }

  lemma RunsOn2()
    ensures Leads(STOLEN2, FINISH, ENDED2)
  {
    hide Apply, Leads, Moment;
    ThirdSteps();
    Stays(ENDED2);
    Step(CLEANED2, E13, ENDED2, [], ENDED2);
    Step(STOLEN2, E12, CLEANED2, [E13] + [], ENDED2);
  }

  lemma LateIsHarmful2()
    ensures !Theorems.CarefulEvent(CLAIMED2, LATE)
  {
    assert Owned(CLAIMED2.core, CLEANER) && Id(CLEANER) == Id(STALE) && Id(STALE) == 1;
    assert 5 in CLAIMED2.members && CLAIMED2.members[5] == Bob(Pending);
    assert CLEANER in CLAIMED2.workers && CLAIMED2.workers[CLEANER] == CleanupRead({3}, {"ann", "bob"}, "a");
    assert STALE in CLAIMED2.workers && CLAIMED2.workers[STALE] == Started;
    hide Known, Id, Owned, Moment;
    assert !Admits(CLAIMED2, CLEANER);
  }

  /** The update is over, no job is left for the instance, and bob is still running. */
  predicate LeftBehind(s: State) {
    && 5 in s.members && s.members[5] == Member(1, "bob", User, Creating, Running)
    && ROW in s.core.life && s.core.life[ROW] == Life(Updating, Success, Some(4), None)
  }

  lemma EndedBehind()
    ensures LeftBehind(ENDED2)
  {}

  /** From the empty database again: a harmful taking during the cleanup leaves a member behind. */
  lemma StaleClaimStrandsAMember()
    ensures Leads(START, SETUP + BEFORE + UPDATE + MIDDLE, CLAIMED2)
    ensures !Theorems.CarefulEvent(CLAIMED2, LATE) && Leads(Apply(CLAIMED2, LATE), FINISH, ENDED2)
    ensures LeftBehind(ENDED2)
  {
    hide Leads, Apply, Theorems.CarefulEvent, LeftBehind, SETUP, BEFORE, UPDATE, MIDDLE, FINISH;
    ReachesClaimed2();
    ThirdSteps();
    RunsOn2();
    LateIsHarmful2();
    EndedBehind();
  }
}
