/** The parts of a worker's life that every step shares. Each function of this module and of the
    modules that model the steps is one transaction or one remote observation. A worker may stop
    after any of them and may act again arbitrarily late; a function whose worker is not at the
    matching point of its body, or whose fence rejects the token, changes nothing. */
module WorkerSteps {
  import opened Records
  import opened Execution
  import opened Store

  function Deliver(s: State, id: nat, task: Step, now: int): State {
    if Claimable(s.core, id, task)
    then s.(core := ClaimExecution(s.core, id, task, now), workers := s.workers[ClaimToken(s.core, id) := Started])
    else s
  }

  function Heartbeat(s: State, c: Claim, now: int): State {
    if c in s.workers then s.(core := HeartbeatExecution(s.core, c, now)) else s
  }

  function Reclaim(s: State, id: nat, staleBefore: int): State {
    s.(core := PrepareRetry(s.core, id, staleBefore))
  }

  /** The failure handler around every step body. */
  function Fail(s: State, c: Claim): State {
    if c in s.workers then s.(core := FailExecution(s.core, c)) else s
  }

  /** Argo CD was busy: the steps without claimed members return to pending. */
  function Defer(s: State, c: Claim): State {
    if c in s.workers && (c.step == CreateInstance || c.step == StartInstance || c.step == RemoveWorkspaces
                          || c.step == RemoveInstance || c.step == StopInstance)
    then s.(core := DeferExecution(s.core, c)) else s
  }

  /** Advance together with new columns of the owned instance. */
  function AdvanceInstance(s: State, c: Claim, next: Step, instance: Instance): State {
    if Owned(s.core, c)
    then s.(core := AdvanceExecution(s.core, c, next), instances := s.instances[Id(c) := instance])
    else s
  }

  function WorkspaceRows(ws: set<nat>): set<Resource> {
    set w | w in ws :: WorkspaceRow(w)
  }

  function AssignmentRows(ids: set<nat>): set<Resource> {
    set a | a in ids :: AssignmentRow(a)
  }

  function FinishDatabaseSync(s: State, c: Claim): State {
    if At(s, c, SyncDatabase) && Owned(s.core, c) then s.(core := CompleteExecution(s.core, c, None)) else s
  }
}
