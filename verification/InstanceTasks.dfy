/** The transactions of the instance steps as the workers run them. Every method is called by a
    worker that holds the token `c` and stands at the point of its body that `Local` names; the
    worker's own variables are parameters. */
module InstanceTasks {
  import opened Records
  import opened Execution
  import opened Store
  import opened WorkerSteps
  import opened Session
  import opened ProtocolLaws
  import CS = CreateSteps
  import US = UpdateSteps
  import TS = TeardownSteps
  import Text

  /** `advance_execution` with new columns of the owned instance. */
  method Advance(db: Session, c: Claim, next: Step, instance: Instance) returns (ok: bool)
    modifies db`instances, db.rows
    ensures db.View() == AdvanceInstance(old(db.View()), c, next, instance)
    ensures ok == Owned(old(db.rows.Tables()), c)
  {
    ok := db.rows.AdvanceExecution(c, next);
    if ok { db.instances := db.instances[Id(c) := instance]; }
  }

  // ---------- creation ----------

  /** `store_name`. */
  method FinishApplication(db: Session, c: Claim, name: string) returns (ok: bool)
    requires c in db.workers && c.step == CreateInstance && Id(c) in db.instances && Id(c) in db.allocations
    modifies db`instances, db.rows
    ensures db.View() == CS.FinishApplication(old(db.View()), c, name)
    ensures ok == Owned(old(db.rows.Tables()), c)
  {
    var instance := db.instances[Id(c)].(argoName := Some(name));
    instance := instance.(started := true);
    ok := Advance(db, c, BootstrapAdmin, instance);
  }

  /** `_prepare_bootstrap`: nothing when the claim is lost, else the password to send, if any. */
  method PrepareBootstrap(db: Session, c: Claim, drawn: string) returns (preparation: Option<Option<string>>)
    requires c in db.workers && c.step == BootstrapAdmin && db.workers[c] == Started && Id(c) in db.instances
    modifies db`instances, db`secrets, db`workers
    ensures db.View() == CS.PrepareBootstrap(old(db.View()), c, drawn)
    ensures preparation.Some? == Owned(db.rows.Tables(), c)
    ensures preparation.Some? ==> db.workers[c] == BootstrapRead(preparation.value)
  {
    var owned := db.rows.OwnedExecution(c);
    if !owned { return None; }
    var i := Id(c);
    var password := None;
    if db.instances[i].password.None? {
      if db.instances[i].candidate.None? {
        password := Some(drawn);
        db.instances := db.instances[i := db.instances[i].(candidate := password)];
        db.secrets := db.secrets[i := drawn];
      } else {
        password := db.instances[i].candidate;
      }
    }
    db.workers := db.workers[c := BootstrapRead(password)];
    assert db.instances == old(db.instances)[i := db.instances[i]];
    preparation := Some(password);
  }

  /** The completion with `_promote_password`. */
  method FinishBootstrap(db: Session, c: Claim, isUpdate: bool) returns (ok: bool)
    requires c in db.workers && c.step == BootstrapAdmin && db.workers[c] == BootstrapDone && Id(c) in db.instances
    requires db.instances[Id(c)].password.Some? || db.instances[Id(c)].candidate.Some?
    requires c.job in db.rows.jobs ==> isUpdate == (db.rows.jobs[c.job].name == InstanceUpdate)
    modifies db`instances, db.rows
    ensures db.View() == CS.FinishBootstrap(old(db.View()), c)
    ensures ok == Owned(old(db.rows.Tables()), c)
  {
    if isUpdate {
      ok := db.rows.AdvanceExecution(c, CleanupUsers);
    } else {
      ok := db.rows.CompleteExecution(c, None, false);
    }
    if !ok { return; }
    var instance := db.instances[Id(c)];
    if instance.password.None? { instance := instance.(password := instance.candidate); }
    db.instances := db.instances[Id(c) := instance.(candidate := None)];
  }

  // ---------- update and cleanup ----------

  /** Assign a status to the members of `ids`, row by row. */
  method SetStatus(db: Session, ids: set<nat>, status: Status)
    modifies db`members
    ensures db.members == US.SetStatus(old(db.members), ids, status)
  {
    ghost var before := db.members;
    var left := ids * db.members.Keys;
    while left != {}
      invariant left <= ids && left <= db.members.Keys && db.members.Keys == before.Keys
      invariant forall m <- before ::
                  db.members[m] == if m in ids && m !in left then before[m].(status := status) else before[m]
      decreases left
    {
      var m :| m in left;
      left := left - {m};
      db.members := db.members[m := db.members[m].(status := status)];
    }
  }

  /** `_claim_members`: it does not check ownership. */
  method ClaimMembers(db: Session, c: Claim) returns (claimed: set<nat>, policy: set<(string, Role)>)
    requires c in db.workers && c.step == UpdateInstance && db.workers[c] == Started && Id(c) in db.instances
    modifies db`members, db`workers
    ensures db.View() == US.ClaimMembers(old(db.View()), c)
    ensures db.workers[c] == PolicyRead(claimed, policy)
  {
    var i := Id(c);
    claimed := set m | m in db.members && db.members[m].instance == i && Unfinished(db.members[m].status);
    policy := set m | m in db.members && db.members[m].instance == i && db.members[m].action != Deleting ::
      (db.members[m].username, db.members[m].role);
    SetStatus(db, claimed, Running);
    db.workers := db.workers[c := PolicyRead(claimed, policy)];
  }

  /** The members of `ids` that are still running. */
  method Held(db: Session, ids: set<nat>) returns (held: set<nat>)
    ensures held == US.Held(db.members, ids)
  {
    held := set m | m in ids && m in db.members && db.members[m].status == Running;
  }

  /** `fail_execution` with `_fail_members`. */
  method FailMembers(db: Session, c: Claim, claimed: set<nat>)
    requires c in db.workers && (c.step == UpdateInstance || c.step == CleanupUsers)
    requires (db.workers[c].PolicyRead? || db.workers[c].CleanupRead?) && claimed == db.workers[c].claimed
    modifies db`members, db.rows
    ensures db.View() == US.FailMembers(old(db.View()), c)
  {
    var owned := db.rows.OwnedExecution(c);
    if !owned { return; }
    db.rows.FailExecution(c);
    var held := Held(db, claimed);
    SetStatus(db, held, Error);
  }

  /** `defer_execution` with `_defer_members`. */
  method DeferMembers(db: Session, c: Claim, claimed: set<nat>) returns (ok: bool)
    requires c in db.workers && c.step == UpdateInstance
    requires db.workers[c].PolicyRead? && claimed == db.workers[c].claimed
    modifies db`members, db.rows
    ensures db.View() == US.DeferPolicy(old(db.View()), c)
    ensures ok == Owned(old(db.rows.Tables()), c)
  {
    ok := db.rows.DeferExecution(c);
    if !ok { return; }
    var held := Held(db, claimed);
    SetStatus(db, held, Pending);
  }

  /** `store_started` and `_store_application_name`. */
  method FinishPolicy(db: Session, c: Claim, name: string) returns (ok: bool)
    requires c in db.workers && (c.step == UpdateInstance || c.step == StartInstance)
    requires db.workers[c].PolicyAccepted? && Id(c) in db.instances
    modifies db`instances, db.rows
    ensures db.View() == US.FinishPolicy(old(db.View()), c, name)
    ensures ok == Owned(old(db.rows.Tables()), c)
  {
    var instance := db.instances[Id(c)].(argoName := Some(name));
    instance := instance.(started := true);
    ok := Advance(db, c, CleanupUsers, instance);
  }

  /** `_claim_cleanup`: nothing when the application name is missing. */
  method ClaimCleanup(db: Session, c: Claim) returns (read: Option<(set<nat>, set<string>, string)>)
    requires c in db.workers && c.step == CleanupUsers && db.workers[c] == Started && Id(c) in db.instances
    modifies db`members, db`workers
    ensures db.View() == US.ClaimCleanup(old(db.View()), c)
    ensures read.Some? == old(db.instances[Id(c)].argoName.Some?)
    ensures read.Some? ==> db.workers[c] == CleanupRead(read.value.0, read.value.1, read.value.2)
  {
    var i := Id(c);
    if db.instances[i].argoName.None? { return None; }
    var claimed := set m | m in db.members && db.members[m].instance == i
                           && (db.members[m].status == Running || db.members[m].status == Error);
    var expected := set m | m in db.members && db.members[m].instance == i
                            && (db.members[m].action != Deleting || m !in claimed) :: db.members[m].username;
    SetStatus(db, claimed, Running);
    db.workers := db.workers[c := CleanupRead(claimed, expected, db.instances[i].argoName.value)];
    read := Some((claimed, expected, db.instances[i].argoName.value));
  }

  /** The deletions of a list of accounts, one after the other. */
  function Deletions(job: nat, names: seq<string>): seq<Fact> {
    seq(|names|, k requires 0 <= k < |names| => DeletedAccount(job, names[k]))
  }

  /** `cleanup_user_accounts` over the account names that Coder lists: every one that is neither expected nor
      protected is deleted, in order, each after a proof that the claim is current; `removes` says which
      deletions Coder carries out. It succeeds exactly while the claim is current and Coder deletes them all, and
      then the cleanup is done. */
  method CleanupAccounts(db: Session, c: Claim, ghost claimed: set<nat>, expected: set<string>, ghost argoName: string,
                         accounts: set<string>, protected: set<string>, removes: string -> bool, now: int) returns (ok: bool)
    requires c in db.workers && c.step == CleanupUsers && db.workers[c] == CleanupRead(claimed, expected, argoName)
    requires Id(c) in db.instances && db.instances[Id(c)].password.Some?
    modifies db`log, db`workers, db.rows`jobs
    ensures ok <==> Owned(old(db.rows.Tables()), c) && forall name <- accounts - expected - protected :: removes(name)
    ensures ok ==> db.log == old(db.log) + Deletions(c.job, Text.Sorted(accounts - expected - protected))
    ensures ok ==> db.workers == old(db.workers)[c := CleanupDone(claimed, argoName)]
    ensures !ok ==> db.workers == old(db.workers)
    ensures !ok ==> exists k: nat :: k <= |Text.Sorted(accounts - expected - protected)|
                      && (forall j :: 0 <= j < k ==> removes(Text.Sorted(accounts - expected - protected)[j]))
                      && db.log == old(db.log) + Deletions(c.job, Text.Sorted(accounts - expected - protected)[..k])
  {
    hide Text.Sorted, Deletions, Owned, HeartbeatExecution;
    ghost var log := db.log;
    var beating := db.rows.HeartbeatExecution(c, now);
    var orphaned := Text.Sort(accounts - expected - protected);
    NoDeletions(c.job, log, orphaned);
    if !beating { return false; }
    HeartbeatRefreshes(old(db.rows.Tables()), c, now);
    var k := 0;
    while k < |orphaned|
      invariant k <= |orphaned| && db.workers == old(db.workers) && Owned(db.rows.Tables(), c)
      invariant forall j :: 0 <= j < k ==> removes(orphaned[j])
      invariant db.log == log + Deletions(c.job, orphaned[..k])
      modifies db`log, db.rows`jobs
    {
      HeartbeatRefreshes(db.rows.Tables(), c, now);
      beating := db.rows.HeartbeatExecution(c, now);
      if !beating || !removes(orphaned[k]) { return false; }
      OneMore(c.job, log, orphaned, k);
      db.log := db.log + [DeletedAccount(c.job, orphaned[k])];
      k := k + 1;
    }
    assert orphaned[..k] == orphaned;
    db.workers := db.workers[c := CleanupDone(claimed, argoName)];
    ok := true;
  }

  lemma NoDeletions(job: nat, log: seq<Fact>, names: seq<string>)
    ensures log + Deletions(job, names[..0]) == log
  {
    assert Deletions(job, names[..0]) == [];
  }

  lemma OneMore(job: nat, log: seq<Fact>, names: seq<string>, k: nat)
    requires k < |names|
    ensures log + Deletions(job, names[..k]) + [DeletedAccount(job, names[k])] == log + Deletions(job, names[..k + 1])
  {
    assert Deletions(job, names[..k + 1]) == Deletions(job, names[..k]) + [DeletedAccount(job, names[k])];
  }

  /** Each turn of the loop is the transaction that the theorems are about. */
  lemma DeletionIsTheAct(s: State, c: Claim, claimed: set<nat>, expected: set<string>, argoName: string, username: string, now: int)
    requires c in s.workers && c.step == CleanupUsers && s.workers[c] == CleanupRead(claimed, expected, argoName)
    requires Id(c) in s.instances && s.instances[Id(c)].password.Some? && username !in expected && Owned(s.core, c)
    ensures US.DeleteAccount(s, c, username, now) ==
            s.(core := HeartbeatExecution(s.core, c, now), log := s.log + [DeletedAccount(c.job, username)])
  {
    hide Owned, HeartbeatExecution, Id;
  }

  /** The loop of the final transaction: a deletion disappears, another change succeeds. */
  method SettleMembers(db: Session, i: nat, claimed: set<nat>)
    modifies db`members
    ensures db.members == US.Settle(old(db.members), i, claimed)
  {
    ghost var before := db.members;
    var left := set m | m in claimed && m in db.members && db.members[m].instance == i && db.members[m].status == Running;
    ghost var all := left;
    while left != {}
      invariant left <= all
      invariant forall m <- before ::
                  if m in all && m !in left && before[m].action == Deleting then m !in db.members
                  else m in db.members
      invariant forall m <- db.members :: m in before
                  && db.members[m] == if m in all && m !in left then before[m].(status := Success) else before[m]
      decreases left
    {
      var m :| m in left;
      left := left - {m};
      if db.members[m].action == Deleting {
        db.members := db.members - {m};
      } else {
        db.members := db.members[m := db.members[m].(status := Success)];
      }
    }
  }

  /** Workspaces go with a deleted owner by cascade. */
  method Cascade(db: Session) returns (orphans: set<nat>)
    modifies db`workspaces, db.rows`life
    ensures orphans == US.Orphans(old(db.View()), db.members)
    ensures db.workspaces == old(db.workspaces) - orphans
    ensures db.rows.Tables() == DeleteRows(old(db.rows.Tables()), WorkspaceRows(orphans))
  {
    orphans := set w | w in db.workspaces && db.workspaces[w].member !in db.members;
    db.workspaces := db.workspaces - orphans;
    db.rows.Remove(WorkspaceRows(orphans));
  }

  method HasPending(db: Session, i: nat) returns (pending: bool)
    ensures pending == US.PendingMember(db.members, i)
  {
    pending := exists m <- db.members :: db.members[m].instance == i && db.members[m].status == Pending;
  }

  /** `_finalize_update`: a change that arrived in the meantime stages the next update. */
  method FinalizeUpdate(db: Session, c: Claim, claimed: set<nat>, argoName: string) returns (next: Option<nat>)
    requires c in db.workers && c.step == CleanupUsers && db.workers[c] == CleanupDone(claimed, argoName)
    requires Id(c) in db.instances
    modifies db`instances, db`members, db`workspaces, db.rows
    ensures db.View() == US.FinalizeUpdate(old(db.View()), c)
    ensures next.Some? <==> Owned(old(db.rows.Tables()), c) && US.PendingMember(db.members, Id(c))
  {
    hide Owned, Execution.CompleteExecution, RequestJob, DeleteRows, US.Settle, US.PendingMember, WorkspaceRows;
    var i := Id(c);
    var owned := db.rows.OwnedExecution(c);
    if !owned { return None; }
    ghost var was := db.View();
    db.instances := db.instances[i := db.instances[i].(argoName := Some(argoName))];
    SettleMembers(db, i, claimed);
    owned := db.rows.CompleteExecution(c, None, false);
    ghost var orphans := Cascade(db);
    assert orphans == US.Orphans(was, db.members);
    next := None;
    var pending := HasPending(db, i);
    if pending {
      var job := db.rows.Stage(InstanceRow(i), InstanceUpdate, UpdateInstance);
      next := Some(job);
    }
  }

  // ---------- stop and deletion ----------

  /** `mark_stopped`, with the completion of the stop. */
  method FinishStop(db: Session, c: Claim) returns (ok: bool)
    requires c in db.workers && c.step == StopInstance && db.workers[c] == Confirmed && Id(c) in db.instances
    modifies db`instances, db.rows
    ensures db.View() == TS.FinishStop(old(db.View()), c)
    ensures ok == Owned(old(db.rows.Tables()), c)
  {
    ok := db.rows.CompleteExecution(c, None, false);
    if ok { db.instances := db.instances[Id(c) := db.instances[Id(c)].(started := false)]; }
  }

  /** `_store_started_application`. */
  method RestoreApplication(db: Session, c: Claim, name: Option<string>) returns (ok: bool)
    requires c in db.workers && c.step == RemoveWorkspaces && db.workers[c] == Started && Id(c) in db.instances
    requires db.instances[Id(c)].password.Some?
    modifies db`instances, db`workers
    ensures db.View() == TS.RestoreApplication(old(db.View()), c, name)
    ensures ok == Owned(db.rows.Tables(), c)
  {
    ok := db.rows.OwnedExecution(c);
    if !ok { return; }
    var instance := db.instances[Id(c)];
    if name.Some? { instance := instance.(argoName := name); }
    db.instances := db.instances[Id(c) := instance.(started := true)];
    db.workers := db.workers[c := ApplicationRestored];
  }

  /** `mark_stopped`, with the advance of the deletion. */
  method FinishRemoveInstance(db: Session, c: Claim) returns (ok: bool)
    requires c in db.workers && c.step == RemoveInstance && db.workers[c] == Confirmed && Id(c) in db.instances
    modifies db`instances, db.rows
    ensures db.View() == TS.FinishRemoveInstance(old(db.View()), c)
    ensures ok == Owned(old(db.rows.Tables()), c)
  {
    ok := Advance(db, c, RemoveSchema, db.instances[Id(c)].(started := false));
  }

  /** The rows deleted by their instance column. */
  method DeleteDependents(db: Session, i: nat) returns (workspaces: set<nat>)
    modifies db`workspaces, db`members, db`allocations
    ensures workspaces == TS.WorkspacesOf(old(db.View()), i) && db.workspaces == old(db.workspaces) - workspaces
    ensures db.members == old(db.members) - TS.MembersOf(old(db.View()), i)
    ensures db.allocations == old(db.allocations) - {i}
  {
    workspaces := set w | w in db.workspaces && db.workspaces[w].instance == i;
    var members := set m | m in db.members && db.members[m].instance == i;
    db.workspaces := db.workspaces - workspaces;
    db.members := db.members - members;
    db.allocations := db.allocations - {i};
  }

  /** The last transaction of a deletion; the assignments go with the instance by cascade. */
  method RemoveLocal(db: Session, c: Claim) returns (ok: bool)
    requires c in db.workers && c.step == RemoveLocalConfiguration && Id(c) in db.instances
    modifies db`instances, db`allocations, db`members, db`workspaces, db`assignments, db.rows
    ensures db.View() == TS.RemoveLocal(old(db.View()), c)
    ensures ok == Owned(old(db.rows.Tables()), c)
  {
    hide Owned, CompleteAndDelete, DeleteRows, WorkspaceRows, AssignmentRows, TS.WorkspacesOf, TS.MembersOf;
    ok := db.rows.OwnedExecution(c);
    if !ok { return; }
    var i := Id(c);
    var assignments := set a | a in db.assignments && db.assignments[a].instance == i;
    assert assignments == TS.AssignmentsOf(db.View(), i);
    hide TS.AssignmentsOf;
    var workspaces := DeleteDependents(db, i);
    ok := db.rows.CompleteExecution(c, None, true);
    db.instances := db.instances - {i};
    db.assignments := db.assignments - assignments;
    db.rows.Remove(WorkspaceRows(workspaces) + AssignmentRows(assignments));
  }
}
