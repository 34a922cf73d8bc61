/** The bodies of the template and assignment steps. */
module TemplateSteps {
  import opened Records
  import opened Execution
  import opened Store
  import opened WorkerSteps

  /** `stable_assignment_ids`: created, finished assignments on started, successful instances. */
  predicate IsTarget(s: State, t: nat, a: nat) {
    && a in s.assignments && s.assignments[a].template == t
    && AssignmentRow(a) in s.core.life
    && s.core.life[AssignmentRow(a)].action == Created && s.core.life[AssignmentRow(a)].status == Success
    && var i := s.assignments[a].instance;
       && i in s.instances && s.instances[i].started
       && InstanceRow(i) in s.core.life
       && s.core.life[InstanceRow(i)].status == Success && s.core.life[InstanceRow(i)].action != Deleting
  }

  predicate Distinct(xs: seq<nat>) {
    forall j, k :: 0 <= j < k < |xs| ==> xs[j] != xs[k]
  }

  ghost predicate AreTargets(s: State, t: nat, targets: seq<nat>) {
    Distinct(targets) && forall a :: a in targets <==> IsTarget(s, t, a)
  }

  predicate Publishes(s: State, c: Claim) {
    At(s, c, SyncTemplate) || At(s, c, CreateTemplate)
  }

  /** The targets of a synchronisation, in the order of the query, or the one assignment being created. */
  ghost function ReadTargets(s: State, c: Claim, targets: seq<nat>): State {
    if At(s, c, SyncTemplate) && s.workers[c] == Started && Id(c) in s.templates && AreTargets(s, Id(c), targets)
    then SetLocal(s, c, TargetsRead(targets))
    else if At(s, c, CreateTemplate) && s.workers[c] == Started && Id(c) in s.assignments
    then SetLocal(s, c, TargetsRead([Id(c)]))
    else s
  }

  function TemplateOf(s: State, c: Claim): nat {
    if c.step == CreateTemplate && Id(c) in s.assignments then s.assignments[Id(c)].template else Id(c)
  }

  /** Read the source snapshot and fetch the branch, which answers some commit. */
  function FetchSource(s: State, c: Claim, commit: string): State {
    if Publishes(s, c) && s.workers[c].TargetsRead? && s.workers[c].targets != [] && TemplateOf(s, c) in s.templates
    then SetLocal(s, c, Publishing(s.workers[c].targets, 0, 0, commit, s.templates[TemplateOf(s, c)].revision, false, false))
    else s
  }

  /** `_job_matches_claim`. */
  predicate JobMatchesClaim(core: Core, c: Claim) {
    && c.job in core.jobs
    && var job := core.jobs[c.job];
       && job.task == c.task && job.step == c.step && job.attempt == c.attempt && job.status == Running
       && job.resource == c.resource
  }

  predicate RunsFor(core: Core, id: nat, k: Resource, action: Action)
    requires id in core.jobs
  {
    && core.jobs[id].resource == Some(k) && k in core.life
    && core.life[k] == Life(action, Running, Some(id), Some(core.jobs[id].step))
  }

  /** `_job_owns_sync_resource`. */
  predicate JobOwnsSyncResource(core: Core, id: nat, t: nat, a: nat)
    requires id in core.jobs
  {
    match core.jobs[id].name
    case TemplateSync => RunsFor(core, id, TemplateRow(t), Syncing)
    case AssignmentCreate => RunsFor(core, id, AssignmentRow(a), Creating)
    case _ => false
  }

  predicate TargetExists(s: State, a: nat) {
    a in s.assignments && s.assignments[a].instance in s.instances && s.assignments[a].template in s.templates
  }

  /** `_lock_owned_template_target`, the fence of every deployment write. */
  predicate OwnsTarget(s: State, c: Claim, a: nat) {
    && JobMatchesClaim(s.core, c) && TargetExists(s, a)
    && JobOwnsSyncResource(s.core, c.job, s.assignments[a].template, a)
  }

  predicate HasNext(l: Local) {
    l.Publishing? && l.handled < |l.targets|
  }

  function Current(l: Local): nat
    requires HasNext(l)
  {
    l.targets[l.handled]
  }

  function Handled(l: Local, ok: bool): Local
    requires l.Publishing?
  {
    l.(handled := l.handled + 1, failures := if ok then l.failures else l.failures + 1, open := false, known := false)
  }

  predicate Applied(d: Deployment, commit: string, revision: nat) {
    d.status == Success && d.appliedCommit == Some(commit) && d.appliedRevision == Some(revision)
  }

  const NEW_DEPLOYMENT := Deployment(Pending, None, None, None, None, None, None)

  function Stored(assignment: Assignment): Deployment {
    if assignment.deployment.Some? then assignment.deployment.value else NEW_DEPLOYMENT
  }

  function Retarget(d: Deployment, commit: string, revision: nat): Deployment {
    var d' := if d.targetCommit != Some(commit) || d.targetRevision != Some(revision) then d.(versionId := None) else d;
    d'.(targetCommit := Some(commit), targetRevision := Some(revision), status := Running)
  }

  function SetDeployment(s: State, a: nat, d: Deployment): State
    requires a in s.assignments
  {
    s.(assignments := s.assignments[a := s.assignments[a].(deployment := Some(d))])
  }

  /** Started, at rest and with stored credentials. */
  predicate InstanceReady(s: State, i: nat) {
    && i in s.instances && s.instances[i].started && s.instances[i].password.Some?
    && InstanceRow(i) in s.core.life && s.core.life[InstanceRow(i)].status == Success
  }

  /** `_prepare_deployment` on the next target. A missing target or an instance that is not ready
      counts as one failure, an applied deployment is skipped, and a lost claim stops the worker. */
  function OpenTarget(s: State, c: Claim): State {
    if Publishes(s, c) && HasNext(s.workers[c]) && !s.workers[c].open && JobMatchesClaim(s.core, c) then
      var l := s.workers[c];
      var a := Current(l);
      if !TargetExists(s, a) || s.assignments[a].template != TemplateOf(s, c) then SetLocal(s, c, Handled(l, false))
      else if !OwnsTarget(s, c, a) then s
      else if !InstanceReady(s, s.assignments[a].instance) then SetLocal(s, c, Handled(l, false))
      else
        var d := Stored(s.assignments[a]);
        if Applied(d, l.commit, l.revision) then SetLocal(s, c, Handled(l, true))
        else SetLocal(SetDeployment(s, a, Retarget(d, l.commit, l.revision)), c, l.(open := true))
    else s
  }

  predicate Open(s: State, c: Claim) {
    Publishes(s, c) && HasNext(s.workers[c]) && s.workers[c].open
  }

  /** `_store_remote_ids`; without a deployment row it raises. */
  function StoreRemoteIds(s: State, c: Claim, templateId: Option<nat>, versionId: Option<nat>): State {
    if Open(s, c) && OwnsTarget(s, c, Current(s.workers[c])) && s.assignments[Current(s.workers[c])].deployment.Some? then
      var a := Current(s.workers[c]);
      var d := s.assignments[a].deployment.value;
      SetLocal(SetDeployment(s, a, d.(templateId := if templateId.Some? then templateId else d.templateId,
                                      versionId := if versionId.Some? then versionId else d.versionId)),
               c, s.workers[c].(known := s.workers[c].known || templateId.Some?))
    else s
  }

  /** `_finish_deployment`; the publication succeeds only once the remote template is known, and
      without a deployment row there is nothing to record. */
  function CloseTarget(s: State, c: Claim, success: bool): State {
    if Open(s, c) && OwnsTarget(s, c, Current(s.workers[c])) && (success ==> s.workers[c].known) then
      var l := s.workers[c];
      var a := Current(l);
      if s.assignments[a].deployment.None? then SetLocal(s, c, Handled(l, success))
      else
        var d := s.assignments[a].deployment.value;
        var d' := if success then d.(status := Success, appliedCommit := Some(l.commit), appliedRevision := Some(l.revision))
                  else d.(status := Error);
        SetLocal(SetDeployment(s, a, d'), c, Handled(l, success))
    else s
  }

  predicate AllHandled(l: Local) {
    || l == TargetsRead([])
    || (l.Publishing? && l.handled == |l.targets| && l.failures == 0)
  }

  /** With failures the body raises instead. */
  function FinishPublication(s: State, c: Claim): State {
    if Publishes(s, c) && AllHandled(s.workers[c]) && Owned(s.core, c)
    then s.(core := CompleteExecution(s.core, c, if c.step == CreateTemplate then Some(Created) else None))
    else s
  }

  // ---------- assignment removal ----------

  /** `_removal_snapshot`: a known remote template requires a ready instance. */
  function ReadRemoval(s: State, c: Claim): State {
    if && At(s, c, DeleteTemplate) && s.workers[c] == Started && Id(c) in s.assignments
       && var a := s.assignments[Id(c)];
          a.instance in s.instances
          && (a.deployment.Some? && a.deployment.value.templateId.Some? ==> InstanceReady(s, a.instance))
    then SetLocal(s, c, RemovalRead(s.assignments[Id(c)].template, s.assignments[Id(c)].instance))
    else s
  }

  /** The remote workspaces and the remote template are gone. */
  function ConfirmRemoval(s: State, c: Claim): State {
    if At(s, c, DeleteTemplate) && s.workers[c].RemovalRead?
    then SetLocal(s, c, RemovalDone(s.workers[c].template, s.workers[c].instance)) else s
  }

  function PairWorkspaces(s: State, i: nat, t: nat): set<nat> {
    set w | w in s.workspaces && s.workspaces[w].instance == i && s.workspaces[w].template == t
  }

  /** `_remove_local_assignment`. */
  function RemoveAssignment(s: State, c: Claim): State {
    if At(s, c, DeleteTemplate) && s.workers[c].RemovalDone? && Owned(s.core, c) then
      var ws := PairWorkspaces(s, s.workers[c].instance, s.workers[c].template);
      s.(core := DeleteRows(CompleteAndDelete(s.core, c), WorkspaceRows(ws)),
         assignments := s.assignments - {Id(c)},
         workspaces := s.workspaces - ws)
    else s
  }
}
