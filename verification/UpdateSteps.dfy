/** The steps of instance update and start: the member policy, the account cleanup and its final
    transaction. */
module UpdateSteps {
  import opened Records
  import opened Execution
  import opened Store
  import opened WorkerSteps

  function PolicyOf(members: map<nat, Member>, i: nat): set<(string, Role)> {
    set m | m in members && members[m].instance == i && members[m].action != Deleting ::
      (members[m].username, members[m].role)
  }

  function Unsettled(members: map<nat, Member>, i: nat): set<nat> {
    set m | m in members && members[m].instance == i && Unfinished(members[m].status)
  }

  function SetStatus(members: map<nat, Member>, ids: set<nat>, status: Status): map<nat, Member> {
    map m | m in members :: if m in ids then members[m].(status := status) else members[m]
  }

  /** `_claim_members`: it does not check ownership. */
  function ClaimMembers(s: State, c: Claim): State {
    var i := Id(c);
    if At(s, c, UpdateInstance) && s.workers[c] == Started && i in s.instances then
      var claimed := Unsettled(s.members, i);
      SetLocal(s.(members := SetStatus(s.members, claimed, Running)), c, PolicyRead(claimed, PolicyOf(s.members, i)))
    else s
  }

  /** The start step reads the same policy and claims nothing; it requires the admin password. */
  function ReadMembers(s: State, c: Claim): State {
    var i := Id(c);
    if At(s, c, StartInstance) && s.workers[c] == Started && i in s.instances && s.instances[i].password.Some?
    then SetLocal(s, c, PolicyRead({}, PolicyOf(s.members, i))) else s
  }

  /** Argo CD accepted the Application carrying the policy that was read. */
  function AcceptPolicy(s: State, c: Claim): State {
    if (At(s, c, UpdateInstance) || At(s, c, StartInstance)) && s.workers[c].PolicyRead? && Id(c) in s.allocations
    then SetLocal(s.(log := s.log + [AcceptedPolicy(c.job, s.workers[c].policy)]), c,
                  PolicyAccepted(s.workers[c].claimed, s.workers[c].policy))
    else s
  }

  function FinishPolicy(s: State, c: Claim, name: string): State {
    if (At(s, c, UpdateInstance) || At(s, c, StartInstance)) && s.workers[c].PolicyAccepted? && Id(c) in s.instances
    then AdvanceInstance(s, c, CleanupUsers, s.instances[Id(c)].(argoName := Some(name), started := true))
    else s
  }

  /** The members of `ids` that the attempt still holds. */
  function Held(members: map<nat, Member>, ids: set<nat>): set<nat> {
    set m | m in ids && m in members && members[m].status == Running
  }

  function Claimed(l: Local): set<nat> {
    match l
    case PolicyRead(claimed, _) => claimed
    case CleanupRead(claimed, _, _) => claimed
    case _ => {}
  }

  /** `defer_execution` with `_defer_members`. */
  function DeferPolicy(s: State, c: Claim): State {
    if At(s, c, UpdateInstance) && s.workers[c].PolicyRead? && Owned(s.core, c)
    then s.(core := DeferExecution(s.core, c),
            members := SetStatus(s.members, Held(s.members, Claimed(s.workers[c])), Pending))
    else s
  }

  /** `fail_execution` with `_fail_members`. */
  function FailMembers(s: State, c: Claim): State {
    if && (At(s, c, UpdateInstance) || At(s, c, CleanupUsers))
       && (s.workers[c].PolicyRead? || s.workers[c].CleanupRead?) && Owned(s.core, c)
    then s.(core := FailExecution(s.core, c),
            members := SetStatus(s.members, Held(s.members, Claimed(s.workers[c])), Error))
    else s
  }

  function Reconciled(members: map<nat, Member>, i: nat): set<nat> {
    set m | m in members && members[m].instance == i && (members[m].status == Running || members[m].status == Error)
  }

  function ExpectedNames(members: map<nat, Member>, i: nat, claimed: set<nat>): set<string> {
    set m | m in members && members[m].instance == i && (members[m].action != Deleting || m !in claimed) ::
      members[m].username
  }

  /** `_claim_cleanup`: it does not check ownership. */
  function ClaimCleanup(s: State, c: Claim): State {
    var i := Id(c);
    if At(s, c, CleanupUsers) && s.workers[c] == Started && i in s.instances && s.instances[i].argoName.Some? then
      var claimed := Reconciled(s.members, i);
      SetLocal(s.(members := SetStatus(s.members, claimed, Running)), c,
               CleanupRead(claimed, ExpectedNames(s.members, i, claimed), s.instances[i].argoName.value))
    else s
  }

  /** One account that is not expected is deleted, right after a successful heartbeat. */
  function DeleteAccount(s: State, c: Claim, username: string, now: int): State {
    if At(s, c, CleanupUsers) && s.workers[c].CleanupRead? && username !in s.workers[c].expected
       && Id(c) in s.instances && s.instances[Id(c)].password.Some? && Owned(s.core, c)
    then s.(core := HeartbeatExecution(s.core, c, now), log := s.log + [DeletedAccount(c.job, username)])
    else s
  }

  function FinishCleanup(s: State, c: Claim): State {
    if At(s, c, CleanupUsers) && s.workers[c].CleanupRead?
       && Id(c) in s.instances && s.instances[Id(c)].password.Some?
    then SetLocal(s, c, CleanupDone(s.workers[c].claimed, s.workers[c].argoName)) else s
  }

  /** The members the final transaction settles: deletions disappear, the others succeed. */
  function Settle(members: map<nat, Member>, i: nat, claimed: set<nat>): map<nat, Member> {
    map m | m in members && !(m in claimed && members[m].instance == i && members[m].status == Running
                              && members[m].action == Deleting)
      :: if m in claimed && members[m].instance == i && members[m].status == Running
         then members[m].(status := Success) else members[m]
  }

  predicate PendingMember(members: map<nat, Member>, i: nat) {
    exists m <- members :: members[m].instance == i && members[m].status == Pending
  }

  /** Workspaces removed with their owner by the database. */
  function Orphans(s: State, members: map<nat, Member>): set<nat> {
    set w | w in s.workspaces && s.workspaces[w].member !in members
  }

  function FinalizeUpdate(s: State, c: Claim): State {
    var i := Id(c);
    if At(s, c, CleanupUsers) && s.workers[c].CleanupDone? && i in s.instances && Owned(s.core, c) then
      var members := Settle(s.members, i, s.workers[c].claimed);
      var orphans := Orphans(s, members);
      var core := DeleteRows(CompleteExecution(s.core, c, None), WorkspaceRows(orphans));
      s.(core := if PendingMember(members, i) then RequestJob(core, InstanceRow(i), InstanceUpdate, UpdateInstance) else core,
         instances := s.instances[i := s.instances[i].(argoName := Some(s.workers[c].argoName))],
         members := members,
         workspaces := s.workspaces - orphans)
    else s
  }
}
