/** The steps of instance creation. */
module CreateSteps {
  import opened Records
  import opened Execution
  import opened Store
  import opened WorkerSteps

  function FinishSchema(s: State, c: Claim): State {
    if At(s, c, CreateSchema) && Id(c) in s.allocations && Owned(s.core, c)
    then s.(core := AdvanceExecution(s.core, c, CreateInstance)) else s
  }

  function FinishApplication(s: State, c: Claim, name: string): State {
    if At(s, c, CreateInstance) && Id(c) in s.instances && Id(c) in s.allocations
    then AdvanceInstance(s, c, BootstrapAdmin, s.instances[Id(c)].(argoName := Some(name), started := true))
    else s
  }

  /** `_prepare_bootstrap`: commit or reload one candidate before any remote request. `drawn` is the
      password the generator would return. */
  function PrepareBootstrap(s: State, c: Claim, drawn: string): State {
    var i := Id(c);
    if At(s, c, BootstrapAdmin) && s.workers[c] == Started && i in s.instances && Owned(s.core, c) then
      var instance := s.instances[i];
      var draws := instance.password.None? && instance.candidate.None?;
      var candidate := if draws then Some(drawn) else instance.candidate;
      SetLocal(s.(instances := s.instances[i := instance.(candidate := candidate)],
                  secrets := if draws then s.secrets[i := drawn] else s.secrets),
               c, BootstrapRead(if instance.password.Some? then None else candidate))
    else s
  }

  function SendBootstrap(s: State, c: Claim): State {
    if At(s, c, BootstrapAdmin) && s.workers[c].BootstrapRead? then
      var log := match s.workers[c].password
        case None => s.log
        case Some(p) => s.log + [SentBootstrap(Id(c), p)];
      SetLocal(s.(log := log), c, BootstrapDone)
    else s
  }

  /** `_promote_password`; with neither a password nor a candidate it raises. */
  function FinishBootstrap(s: State, c: Claim): State {
    var i := Id(c);
    if At(s, c, BootstrapAdmin) && s.workers[c] == BootstrapDone && i in s.instances && Owned(s.core, c)
       && (s.instances[i].password.Some? || s.instances[i].candidate.Some?)
    then
      var instance := s.instances[i];
      var password := if instance.password.Some? then instance.password else instance.candidate;
      s.(core := if s.core.jobs[c.job].name == InstanceUpdate then AdvanceExecution(s.core, c, CleanupUsers)
                 else CompleteExecution(s.core, c, None),
         instances := s.instances[i := instance.(password := password, candidate := None)])
    else s
  }
}
