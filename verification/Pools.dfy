/** The database pool over whole runs: allocations stay within every capacity. */
module Pools {
  import opened Records
  import opened Execution
  import opened Store
  import opened Events
  import opened Frames
  import opened Soundness
  import opened Tables
  import opened Asks
  import opened Placement
  import Protocol
  import D = TeardownSteps
  import IR = InstanceRequests
  import WR = WorkspaceRequests

  ghost predicate Pooled(databases: map<nat, Database>, allocations: map<nat, nat>) {
    PoolOk(databases) && WithinCapacity(databases, allocations)
  }

  lemma PlaceKeepsPool(databases: map<nat, Database>, allocations: map<nat, nat>, i: nat)
    requires Pooled(databases, allocations) && i !in allocations && Place(databases, allocations).Some?
    ensures Pooled(databases, allocations[i := Place(databases, allocations).value])
  {
    var d := Place(databases, allocations).value;
    assert IsChoice(databases, allocations, d);
    AllocateCounts(allocations, i, d);
    hide Count, Before, Place, PoolOk;
  }

  lemma AddInstanceKeepsPool(s: State, unique: bool)
    requires Keyed(s) && Pooled(s.databases, s.allocations)
    ensures var s' := IR.CreateInstance(s, unique).0; Pooled(s'.databases, s'.allocations)
  {
    FreshAllocation(s);
    hide Keyed, Pooled, Place, RequestJob, DrawId;
    if Place(s.databases, s.allocations).Some? { PlaceKeepsPool(s.databases, s.allocations, s.core.nextId); }
  }

  lemma FreshAllocation(s: State)
    requires Keyed(s)
    ensures s.core.nextId !in s.allocations
  {}

  /** Creation is refused for capacity exactly when no slot of the pool is free. */
  lemma RefusedIffFull(s: State, unique: bool)
    requires Pooled(s.databases, s.allocations)
    ensures IR.CreateInstance(s, unique).1 == Refused(NoCapacity)
            <==> forall d <- s.databases :: Count(s.allocations, d) >= s.databases[d].capacity
  {
    PlaceIffFree(s.databases, s.allocations);
    hide Count, Place, RequestJob, PoolOk, WithinCapacity;
  }

  lemma OtherInstanceRequestKeepsPool(s: State, r: InstanceRequest)
    requires Protocol.Inv(s.core) && Keyed(s) && !r.AddInstance?
    ensures var s' := AnswerInstance(s, r).0; s'.databases == s.databases && s'.allocations == s.allocations
  {
    hide IR.HasActiveAssignment, IR.RetryFailedMembers, IR.UsernameTaken, IR.MemberRefusal, IR.LifecycleRefusal, IR.StageUpdate, IR.StagedJob;
    hide RequestJob, Keyed, Protocol.Inv;
  }

  lemma RemoveLocalKeepsPool(s: State, c: Claim)
    requires Pooled(s.databases, s.allocations)
    ensures Pooled(D.RemoveLocal(s, c).databases, D.RemoveLocal(s, c).allocations)
  {
    RemoveLocalMoves(s, c);
    ReleaseCounts(s.allocations, Id(c));
    hide D.RemoveLocal, Id, Count, PoolOk, D.WorkspacesOf, D.AssignmentsOf, D.MembersOf, Owned, DeleteRows, CompleteAndDelete;
  }

  lemma NobodyUses(allocations: Allocations, d: nat)
    requires forall i <- allocations :: allocations[i] != d
    ensures Count(allocations, d) == 0
  {
    assert Users(allocations, d) == {};
  }

  lemma PoolGrows(databases: map<nat, Database>, allocations: map<nat, nat>, d: nat, database: Database)
    requires Pooled(databases, allocations) && d !in databases && database.capacity > 0
    requires forall e <- databases :: databases[e].rank != database.rank
    ensures Pooled(databases[d := database], allocations)
  {
    NobodyUses(allocations, d);
    hide Count;
  }

  lemma AddDatabaseKeepsPool(s: State, capacity: nat, rank: nat)
    requires Keyed(s) && Pooled(s.databases, s.allocations)
    ensures var s' := WR.CreateDatabase(s, capacity, rank).0; Pooled(s'.databases, s'.allocations)
  {
    assert s.core.nextId !in s.databases;
    hide Keyed, Pooled;
    if capacity > 0 && !WR.RankTaken(s.databases, s.core.nextId, rank) {
      PoolGrows(s.databases, s.allocations, s.core.nextId, Database(capacity, rank));
    }
  }

  lemma SetDatabaseKeepsPool(s: State, d: nat, capacity: nat, rank: nat)
    requires Pooled(s.databases, s.allocations)
    ensures var s' := WR.UpdateDatabase(s, d, capacity, rank).0; Pooled(s'.databases, s'.allocations)
  {
    hide Count, Pooled, WR.RankTaken;
    if capacity > 0 && d in s.databases && capacity >= Count(s.allocations, d) && !WR.RankTaken(s.databases, d, rank) {
      ResizedKeepsPool(s.databases, s.allocations, d, capacity, rank);
    }
  }

  lemma ResizedKeepsPool(databases: map<nat, Database>, allocations: map<nat, nat>, d: nat, capacity: nat, rank: nat)
    requires Pooled(databases, allocations) && capacity > 0 && capacity >= Count(allocations, d) && !WR.RankTaken(databases, d, rank)
    ensures Pooled(databases[d := Database(capacity, rank)], allocations)
  {
    hide Count;
  }

  lemma DropDatabaseKeepsPool(s: State, d: nat)
    requires Pooled(s.databases, s.allocations)
    ensures var s' := WR.DeleteDatabase(s, d).0; Pooled(s'.databases, s'.allocations)
  {
    hide Count;
  }

  lemma InstanceRequestKeepsPool(s: State, r: InstanceRequest)
    requires Protocol.Inv(s.core) && Keyed(s) && Pooled(s.databases, s.allocations)
    ensures var s' := AnswerInstance(s, r).0; Pooled(s'.databases, s'.allocations)
  {
    hide Protocol.Inv, Keyed, Pooled, IR.CreateInstance;
    if r.AddInstance? {
      AddInstanceKeepsPool(s, r.unique);
    } else {
      OtherInstanceRequestKeepsPool(s, r);
      hide AnswerInstance;
    }
  }

  lemma WorkspaceRequestKeepsPool(s: State, r: WorkspaceRequest)
    requires Protocol.Inv(s.core) && Keyed(s) && Pooled(s.databases, s.allocations)
    ensures var s' := AnswerWorkspace(s, r).0; Pooled(s'.databases, s'.allocations)
  {
    WorkspaceRequestAsks(s, r);
    hide Protocol.Inv, Asked, Keyed, Pooled, WR.CreateWorkspace, WR.UpdateWorkspace, WR.DeleteWorkspace;
    hide WR.CreateDatabase, WR.UpdateDatabase, WR.DeleteDatabase;
    match r
    case AddDatabase(capacity, rank) => AddDatabaseKeepsPool(s, capacity, rank);
    case SetDatabase(d, capacity, rank) => SetDatabaseKeepsPool(s, d, capacity, rank);
    case DropDatabase(d) => DropDatabaseKeepsPool(s, d);
    case _ =>
  }
}
