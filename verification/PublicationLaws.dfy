/** What the transactions of the template and assignment steps write, and what their workers take along. */
module PublicationLaws {
  import opened Records
  import opened Execution
  import opened Store
  import opened ProtocolLaws
  import T = TemplateSteps

  /** A created, settled assignment of the template on an existing, started, settled instance that is not
      being deleted. */
  predicate Synchronised(s: State, t: nat, a: nat) {
    && a in s.assignments && s.assignments[a].template == t
    && AssignmentRow(a) in s.core.life
    && s.core.life[AssignmentRow(a)].action == Created && s.core.life[AssignmentRow(a)].status == Success
    && s.assignments[a].instance in s.instances && s.instances[s.assignments[a].instance].started
    && InstanceRow(s.assignments[a].instance) in s.core.life
    && s.core.life[InstanceRow(s.assignments[a].instance)].status == Success
    && s.core.life[InstanceRow(s.assignments[a].instance)].action != Deleting
  }

  /** A synchronisation selects exactly these assignments, each once. */
  lemma TargetsSelected(s: State, c: Claim, targets: seq<nat>)
    requires c.step == SyncTemplate && T.ReadTargets(s, c, targets) != s
    ensures c in s.workers && T.ReadTargets(s, c, targets) == s.(workers := s.workers[c := TargetsRead(targets)])
    ensures forall a: nat :: a in targets <==> Synchronised(s, Id(c), a)
    ensures forall j, k :: 0 <= j < k < |targets| ==> targets[j] != targets[k]
  {
    hide Id;
    forall a: nat ensures a in targets <==> Synchronised(s, Id(c), a) { assert a in targets <==> T.IsTarget(s, Id(c), a); }
  }

  /** Whatever order the query answers them in, reading them goes on. */
  lemma TargetsReadable(s: State, c: Claim, targets: seq<nat>)
    requires c in s.workers && c.step == SyncTemplate && s.workers[c] == Started && Id(c) in s.templates
    requires forall a: nat :: a in targets <==> Synchronised(s, Id(c), a)
    requires forall j, k :: 0 <= j < k < |targets| ==> targets[j] != targets[k]
    ensures T.ReadTargets(s, c, targets) == s.(workers := s.workers[c := TargetsRead(targets)])
  {
    hide Id;
    forall a: nat ensures a in targets <==> T.IsTarget(s, Id(c), a) { assert a in targets <==> Synchronised(s, Id(c), a); }
    assert T.AreTargets(s, Id(c), targets);
  }

  lemma CreationTargetsItself(s: State, c: Claim, targets: seq<nat>)
    requires c in s.workers && c.step == CreateTemplate && s.workers[c] == Started && Id(c) in s.assignments
    ensures T.ReadTargets(s, c, targets) == s.(workers := s.workers[c := TargetsRead([Id(c)])])
  {
    hide Id;
  }

  /** The revision is read with the source, before anything is published. */
  lemma SourceFetched(s: State, c: Claim, targets: seq<nat>, commit: string)
    requires c in s.workers && (c.step == SyncTemplate || c.step == CreateTemplate) && s.workers[c] == TargetsRead(targets) && targets != []
    requires c.step == CreateTemplate ==> Id(c) in s.assignments
    requires (if c.step == SyncTemplate then Id(c) else s.assignments[Id(c)].template) in s.templates
    ensures var t := if c.step == SyncTemplate then Id(c) else s.assignments[Id(c)].template;
            T.FetchSource(s, c, commit) ==
              s.(workers := s.workers[c := Publishing(targets, 0, 0, commit, s.templates[t].revision, false, false)])
  {
    hide Id;
  }

  // ---------- one target ----------

  /** The worker of a publication has the target `a` before it. */
  predicate Before(s: State, c: Claim, l: Local, a: nat, open: bool) {
    && c in s.workers && s.workers[c] == l && (c.step == SyncTemplate || c.step == CreateTemplate)
    && l.Publishing? && l.handled < |l.targets| && l.targets[l.handled] == a && l.open == open
  }

  function Next(l: Local, failed: bool): Local
    requires l.Publishing?
  {
    Publishing(l.targets, l.handled + 1, if failed then l.failures + 1 else l.failures, l.commit, l.revision, false, false)
  }

  /** The running job of this attempt is the synchronisation of the template, or the creation of this very
      assignment, and its row says so. */
  predicate Fenced(s: State, c: Claim, a: nat) {
    && c.job in s.core.jobs && a in s.assignments && s.assignments[a].instance in s.instances && s.assignments[a].template in s.templates
    && var job := s.core.jobs[c.job];
       var k := if job.name == TemplateSync then TemplateRow(s.assignments[a].template) else AssignmentRow(a);
       && (job.name == TemplateSync || job.name == AssignmentCreate)
       && job.status == Running && job.task == c.task && job.step == c.step && job.attempt == c.attempt
       && job.resource == c.resource && c.resource == Some(k)
       && k in s.core.life
       && s.core.life[k] == Life(if job.name == TemplateSync then Syncing else Creating, Running, Some(c.job), Some(job.step))
  }

  lemma FencedExactly(s: State, c: Claim, a: nat)
    ensures Fenced(s, c, a) <==> T.OwnsTarget(s, c, a)
  {}

  predicate Reachable(s: State, i: nat) {
    && i in s.instances && s.instances[i].started && s.instances[i].password.Some?
    && InstanceRow(i) in s.core.life && s.core.life[InstanceRow(i)].status == Success
  }

  function Row(s: State, a: nat): Deployment
    requires a in s.assignments
  {
    if s.assignments[a].deployment.Some? then s.assignments[a].deployment.value
    else Deployment(Pending, None, None, None, None, None, None)
  }

  predicate Carries(d: Deployment, commit: string, revision: nat) {
    d.status == Success && d.appliedCommit == Some(commit) && d.appliedRevision == Some(revision)
  }

  /** Only the deployment of one assignment is written. */
  predicate Deploys(s: State, s': State, c: Claim, a: nat, d: Deployment)
    requires a in s.assignments
  {
    s' == s.(assignments := s.assignments[a := s.assignments[a].(deployment := Some(d))], workers := s'.workers)
  }

  /** The template that a synchronisation names, or that of the assignment being created. */
  function Subject(s: State, c: Claim): nat {
    if c.step == SyncTemplate || Id(c) !in s.assignments then Id(c) else s.assignments[Id(c)].template
  }

  /** A target on an instance that is not ready is one failure; one that carries the source already is done;
      any other is marked running for this source, and a version of another source is forgotten. */
  lemma TargetOpened(s: State, c: Claim, l: Local, a: nat)
    requires Before(s, c, l, a, false) && Fenced(s, c, a)
    requires s.assignments[a].template == Subject(s, c)
    ensures var s', d := T.OpenTarget(s, c), Row(s, a);
            if !Reachable(s, s.assignments[a].instance) then s' == s.(workers := s.workers[c := Next(l, true)])
            else if Carries(d, l.commit, l.revision) then s' == s.(workers := s.workers[c := Next(l, false)])
            else
              && Deploys(s, s', c, a, Deployment(Running, d.templateId,
                           if d.targetCommit == Some(l.commit) && d.targetRevision == Some(l.revision) then d.versionId else None,
                           Some(l.commit), Some(l.revision), d.appliedCommit, d.appliedRevision))
              && s'.workers == s.workers[c := l.(open := true)]
  {
    hide Fenced, T.OwnsTarget, Id;
    FencedExactly(s, c, a);
    assert T.JobMatchesClaim(s.core, c) && T.TargetExists(s, a) by { OwnsParts(s, c, a); }
    hide T.JobMatchesClaim;
  }

  /** The attempt is the one the job runs, whatever became of its row. */
  predicate RunsAttempt(core: Core, c: Claim) {
    && c.job in core.jobs && core.jobs[c.job].status == Running
    && core.jobs[c.job].task == c.task && core.jobs[c.job].step == c.step && core.jobs[c.job].attempt == c.attempt
    && core.jobs[c.job].resource == c.resource
  }

  /** A target whose rows are gone or that belongs to another template is one failure; a lost claim stops the
      worker. */
  lemma TargetMissed(s: State, c: Claim, l: Local, a: nat)
    requires Before(s, c, l, a, false)
    requires Fenced(s, c, a) ==> s.assignments[a].template != Subject(s, c)
    ensures var gone := || a !in s.assignments || s.assignments[a].template != Subject(s, c)
                        || s.assignments[a].instance !in s.instances || s.assignments[a].template !in s.templates;
            T.OpenTarget(s, c) == if RunsAttempt(s.core, c) && gone then s.(workers := s.workers[c := Next(l, true)]) else s
  {
    hide Fenced, Id, T.InstanceReady;
    FencedExactly(s, c, a);
  }

  lemma OwnsParts(s: State, c: Claim, a: nat)
    requires T.OwnsTarget(s, c, a)
    ensures T.JobMatchesClaim(s.core, c) && T.TargetExists(s, a)
  {}

  /** A worker that has lost its claim writes no deployment. */
  lemma StaleDeploysNothing(s: State, c: Claim, l: Local, a: nat, templateId: Option<nat>, versionId: Option<nat>, success: bool)
    requires Before(s, c, l, a, true) && !Fenced(s, c, a)
    ensures T.StoreRemoteIds(s, c, templateId, versionId) == s && T.CloseTarget(s, c, success) == s
  {
    hide Fenced, T.OwnsTarget;
    FencedExactly(s, c, a);
  }

  /** The identifiers that the server answered are stored at once; what it did not answer is kept. */
  lemma IdentifiersStored(s: State, c: Claim, l: Local, a: nat, templateId: Option<nat>, versionId: Option<nat>)
    requires Before(s, c, l, a, true) && Fenced(s, c, a) && s.assignments[a].deployment.Some?
    ensures var s', d := T.StoreRemoteIds(s, c, templateId, versionId), Row(s, a);
            && Deploys(s, s', c, a, d.(templateId := if templateId.Some? then templateId else d.templateId,
                                       versionId := if versionId.Some? then versionId else d.versionId))
            && s'.workers == s.workers[c := l.(known := l.known || templateId.Some?)]
  {
    hide Fenced, T.OwnsTarget;
    FencedExactly(s, c, a);
  }

  /** A successful publication records the source as applied; a failed one records the failure and keeps what
      was applied before. */
  lemma TargetClosed(s: State, c: Claim, l: Local, a: nat, success: bool)
    requires Before(s, c, l, a, true) && Fenced(s, c, a) && s.assignments[a].deployment.Some? && (success ==> l.known)
    ensures var s', d := T.CloseTarget(s, c, success), Row(s, a);
            && Deploys(s, s', c, a,
                 if success then Deployment(Success, d.templateId, d.versionId, d.targetCommit, d.targetRevision, Some(l.commit), Some(l.revision))
                 else Deployment(Error, d.templateId, d.versionId, d.targetCommit, d.targetRevision, d.appliedCommit, d.appliedRevision))
            && s'.workers == s.workers[c := Next(l, !success)]
  {
    hide Fenced, T.OwnsTarget;
    FencedExactly(s, c, a);
  }

  /** The job ends exactly when every target was handled and none failed; the creation of an assignment marks
      it as created. */
  lemma PublicationEnds(s: State, c: Claim)
    requires c in s.workers && (c.step == SyncTemplate || c.step == CreateTemplate) && Owned(s.core, c)
    requires c.resource.Some? && s.core.jobs[c.job].resource == c.resource
    ensures var s', l, k := T.FinishPublication(s, c), s.workers[c], c.resource.value;
            if l == TargetsRead([]) || (l.Publishing? && l.handled == |l.targets| && l.failures == 0) then
              && s' == s.(core := s'.core) && k in s.core.life
              && Stood(s.core, s'.core, c, k, if c.step == CreateTemplate then Created else s.core.life[k].action, Success, None)
            else s' == s
  {
    hide Owned, CompleteExecution, Stood;
    CompletedRow(s.core, c, c.resource.value, if c.step == CreateTemplate then Some(Created) else None);
  }

  // ---------- removal ----------

  /** A removal that has something to remove remotely waits for a ready instance. */
  lemma RemovalPrepared(s: State, c: Claim)
    requires c in s.workers && c.step == DeleteTemplate && s.workers[c] == Started && Id(c) in s.assignments
    ensures var s', a := T.ReadRemoval(s, c), s.assignments[Id(c)];
            if a.instance !in s.instances || (a.deployment.Some? && a.deployment.value.templateId.Some? && !Reachable(s, a.instance))
            then s' == s
            else s' == s.(workers := s.workers[c := RemovalRead(a.template, a.instance)])
  {
    hide Id;
  }

  /** The assignment goes with the workspaces of its pair, and nothing else does. */
  lemma AssignmentErased(s: State, c: Claim, t: nat, i: nat)
    requires c in s.workers && c.step == DeleteTemplate && Owned(s.core, c)
    requires c.resource == Some(AssignmentRow(Id(c))) && s.core.jobs[c.job].resource == c.resource
    ensures s.workers[c] != RemovalDone(t, i) && !s.workers[c].RemovalDone? ==> T.RemoveAssignment(s, c) == s
    ensures s.workers[c] == RemovalDone(t, i) ==>
              var s' := T.RemoveAssignment(s, c);
              && s' == s.(core := s'.core, assignments := s.assignments - {Id(c)}, workspaces := s'.workspaces)
              && (forall w :: w in s'.workspaces <==>
                    w in s.workspaces && !(s.workspaces[w].instance == i && s.workspaces[w].template == t))
              && (forall w <- s'.workspaces :: s'.workspaces[w] == s.workspaces[w])
              && c.job in s'.core.jobs && s'.core.jobs[c.job].status == Success && AssignmentRow(Id(c)) !in s'.core.life
              && (forall w <- s.workspaces :: w !in s'.workspaces ==> WorkspaceRow(w) !in s'.core.life)
  {
    hide Owned, CompleteAndDelete, Id;
    CompleteAndDeleteErases(s.core, c);
  }

  lemma RemovalConfirmed(s: State, c: Claim, t: nat, i: nat)
    requires c in s.workers && c.step == DeleteTemplate && s.workers[c] == RemovalRead(t, i)
    ensures T.ConfirmRemoval(s, c) == s.(workers := s.workers[c := RemovalDone(t, i)])
  {}

  lemma StaleStepsWriteNothing(s: State, c: Claim)
    requires !Owned(s.core, c)
    ensures T.FinishPublication(s, c) == s && T.RemoveAssignment(s, c) == s
  {
    hide Owned, Id;
  }
}
