/** The deployment writes of a template publication and the loop over its targets, as the worker
    runs them. */
module TemplateTasks {
  import opened Records
  import opened Execution
  import opened Store
  import opened Session
  import opened TemplateSteps
  import Laws = PublicationLaws

  datatype Preparation = ClaimLost | TargetFailed | AlreadyApplied | Prepared(templateId: Option<nat>, versionId: Option<nat>)

  /** The worker of `c` is at point `l` with target `a` before it. */
  ghost predicate Stands(s: State, c: Claim, l: Local, a: nat, commit: string, revision: nat) {
    && c in s.workers && Publishes(s, c) && s.workers[c] == l && HasNext(l) && Current(l) == a
    && l.commit == commit && l.revision == revision
  }

  predicate IsApplied(assignments: map<nat, Assignment>, a: nat, commit: string, revision: nat) {
    a in assignments && Applied(Stored(assignments[a]), commit, revision)
  }

  ghost predicate OthersKept(before: map<nat, Assignment>, after: map<nat, Assignment>, touched: seq<nat>) {
    && before.Keys == after.Keys
    && forall a :: a in before && a !in touched ==> after[a] == before[a]
  }

  /** The worker keeps its target while it only learns more about it. */
  lemma StillStands(s: State, s': State, c: Claim, l: Local, l': Local, a: nat, commit: string, revision: nat)
    requires Stands(s, c, l, a, commit, revision) && c in s'.workers && s'.workers[c] == l' && l'.Publishing?
    requires l.Publishing? && l' == l.(open := true, known := l'.known)
    ensures Stands(s', c, l', a, commit, revision)
  {
  }

  predicate HasDeployment(assignments: map<nat, Assignment>, a: nat) {
    a in assignments && assignments[a].deployment.Some?
  }

  datatype Fence = Lost | Missing | Target(instance: nat)

  /** `_lock_owned_template_target`. */
  method LockTarget(db: Session, c: Claim, a: nat, expected: Option<nat>) returns (fence: Fence)
    ensures fence.Lost? ==> !OwnsTarget(db.View(), c, a)
    ensures fence.Missing? <==> (&& JobMatchesClaim(db.rows.Tables(), c)
                                 && (!TargetExists(db.View(), a)
                                     || (expected.Some? && db.assignments[a].template != expected.value)))
    ensures fence.Target? <==> OwnsTarget(db.View(), c, a) && !fence.Missing?
    ensures fence.Target? ==> a in db.assignments && db.assignments[a].instance == fence.instance
  {
    if c.job !in db.rows.jobs { return Lost; }
    var job := db.rows.jobs[c.job];
    if job.task != c.task || job.step != c.step || job.attempt != c.attempt || job.status != Running || job.resource != c.resource {
      return Lost;
    }
    if a !in db.assignments { return Missing; }
    var assignment := db.assignments[a];
    if expected.Some? && assignment.template != expected.value { return Missing; }
    if assignment.instance !in db.instances || assignment.template !in db.templates { return Missing; }
    var k, action := AssignmentRow(a), Creating;
    if job.name == TemplateSync {
      k, action := TemplateRow(assignment.template), Syncing;
    } else if job.name != AssignmentCreate {
      return Lost;
    }
    if job.resource != Some(k) || k !in db.rows.life { return Lost; }
    var row := db.rows.life[k];
    if row.action != action || row.status != Running || row.job != Some(c.job) || row.step != Some(job.step) { return Lost; }
    fence := Target(assignment.instance);
  }

  /** `_prepare_deployment` on the next target. */
  method PrepareDeployment(db: Session, c: Claim, ghost l: Local, a: nat, t: nat, commit: string, revision: nat)
    returns (p: Preparation)
    requires Stands(db.View(), c, l, a, commit, revision) && !l.open && t == TemplateOf(db.View(), c)
    modifies db`assignments, db`workers
    ensures p.ClaimLost? ==> db.View() == old(db.View())
    ensures p.TargetFailed? ==> db.View() == SetLocal(old(db.View()), c, Handled(l, false))
    ensures p.AlreadyApplied? ==> db.View() == SetLocal(old(db.View()), c, Handled(l, true))
    ensures p.AlreadyApplied? ==> IsApplied(db.assignments, a, commit, revision)
    ensures p.Prepared? ==> HasDeployment(db.assignments, a)
    ensures OthersKept(old(db.assignments), db.assignments, [a])
    ensures p.Prepared? ==> c in db.workers && db.workers[c] == l.(open := true)
    ensures db.View() == OpenTarget(old(db.View()), c)
  {
    hide Publishes, Applied, Retarget, Stored, TargetExists, JobOwnsSyncResource, JobMatchesClaim, InstanceReady, TemplateOf;
    var fence := LockTarget(db, c, a, Some(t));
    if fence.Lost? { return ClaimLost; }
    if fence.Missing? {
      db.workers := db.workers[c := Handled(db.workers[c], false)];
      return TargetFailed;
    }
    var ready := Ready(db, fence.instance);
    if !ready {
      db.workers := db.workers[c := Handled(db.workers[c], false)];
      return TargetFailed;
    }
    var d := RetargetRow(db, a, commit, revision);
    if d.None? {
      db.workers := db.workers[c := Handled(db.workers[c], true)];
      return AlreadyApplied;
    }
    db.workers := db.workers[c := db.workers[c].(open := true)];
    p := Prepared(d.value.templateId, d.value.versionId);
  }

  method Ready(db: Session, i: nat) returns (ready: bool)
    ensures ready == InstanceReady(db.View(), i)
  {
    if i !in db.instances || InstanceRow(i) !in db.rows.life { return false; }
    ready := db.instances[i].started && db.rows.life[InstanceRow(i)].status == Success && db.instances[i].password.Some?;
  }

  /** Point the deployment row, inserted when it is missing, at the new source, unless it is applied. */
  method RetargetRow(db: Session, a: nat, commit: string, revision: nat) returns (d: Option<Deployment>)
    requires a in db.assignments
    modifies db`assignments
    ensures d.None? <==> Applied(Stored(old(db.assignments)[a]), commit, revision)
    ensures d.None? ==> db.assignments == old(db.assignments)
    ensures d.Some? ==> d.value == Retarget(Stored(old(db.assignments)[a]), commit, revision)
    ensures d.Some? ==> db.assignments == old(db.assignments)[a := old(db.assignments)[a].(deployment := d)]
  {
    var row := if db.assignments[a].deployment.Some? then db.assignments[a].deployment.value else NEW_DEPLOYMENT;
    if row.status == Success && row.appliedCommit == Some(commit) && row.appliedRevision == Some(revision) { return None; }
    if row.targetCommit != Some(commit) || row.targetRevision != Some(revision) {
      row := row.(versionId := None);
    }
    row := row.(targetCommit := Some(commit), targetRevision := Some(revision));
    row := row.(status := Running);
    d := Some(row);
    db.assignments := db.assignments[a := db.assignments[a].(deployment := d)];
  }

  /** `_store_remote_ids`. */
  method StoreIds(db: Session, c: Claim, ghost l: Local, a: nat, commit: string, revision: nat, templateId: Option<nat>, versionId: Option<nat>)
    returns (ok: bool)
    requires Stands(db.View(), c, l, a, commit, revision) && l.open
    modifies db`assignments, db`workers
    ensures db.View() == StoreRemoteIds(old(db.View()), c, templateId, versionId)
    ensures ok <==> OwnsTarget(old(db.View()), c, a) && old(db.assignments)[a].deployment.Some?
    ensures ok ==> c in db.workers && db.workers[c] == l.(known := l.known || templateId.Some?)
    ensures ok ==> HasDeployment(db.assignments, a)
    ensures OthersKept(old(db.assignments), db.assignments, [a])
  {
    hide Publishes, JobOwnsSyncResource, JobMatchesClaim, TargetExists;
    var fence := LockTarget(db, c, a, None);
    if !fence.Target? || db.assignments[a].deployment.None? { return false; }
    var d := db.assignments[a].deployment.value;
    if templateId.Some? { d := d.(templateId := templateId); }
    if versionId.Some? { d := d.(versionId := versionId); }
    db.assignments := db.assignments[a := db.assignments[a].(deployment := Some(d))];
    db.workers := db.workers[c := db.workers[c].(known := db.workers[c].known || templateId.Some?)];
    ok := true;
  }

  /** `_finish_deployment`. */
  method FinishDeployment(db: Session, c: Claim, ghost l: Local, a: nat, commit: string, revision: nat, success: bool) returns (ok: bool)
    requires Stands(db.View(), c, l, a, commit, revision) && l.open
    requires success ==> l.known
    modifies db`assignments, db`workers
    ensures db.View() == CloseTarget(old(db.View()), c, success)
    ensures ok <==> OwnsTarget(old(db.View()), c, a)
    ensures ok ==> c in db.workers && db.workers[c] == Handled(l, success)
    ensures ok && success && HasDeployment(old(db.assignments), a) ==> IsApplied(db.assignments, a, commit, revision)
    ensures OthersKept(old(db.assignments), db.assignments, [a])
  {
    hide Publishes, JobOwnsSyncResource, JobMatchesClaim, TargetExists;
    var fence := LockTarget(db, c, a, None);
    if !fence.Target? { return false; }
    ok := true;
    RecordOutcome(db, a, commit, revision, success);
    db.workers := db.workers[c := Handled(db.workers[c], success)];
  }

  /** Only the row that exists is written. */
  method RecordOutcome(db: Session, a: nat, commit: string, revision: nat, success: bool)
    requires a in db.assignments
    modifies db`assignments
    ensures db.assignments == Recorded(old(db.assignments), a, commit, revision, success)
    ensures success && HasDeployment(old(db.assignments), a) ==> IsApplied(db.assignments, a, commit, revision)
    ensures OthersKept(old(db.assignments), db.assignments, [a])
  {
    if db.assignments[a].deployment.None? { return; }
    var d := db.assignments[a].deployment.value;
    d := d.(status := if success then Success else Error);
    if success {
      d := d.(appliedCommit := Some(commit));
      d := d.(appliedRevision := Some(revision));
    }
    db.assignments := db.assignments[a := db.assignments[a].(deployment := Some(d))];
  }

  function Recorded(assignments: map<nat, Assignment>, a: nat, commit: string, revision: nat, success: bool): map<nat, Assignment>
    requires a in assignments
  {
    if assignments[a].deployment.None? then assignments
    else
      var d := assignments[a].deployment.value;
      var d' := if success then d.(status := Success, appliedCommit := Some(commit), appliedRevision := Some(revision))
                else d.(status := Error);
      assignments[a := assignments[a].(deployment := Some(d'))]
  }

  // ---------- one target, and the loop over all of them ----------

  datatype Outcome = Stopped | Failed | Published

  /** What Coder answers for one target: the template and the version that it imported, or a failure. */
  type Import = Option<(nat, nat)>

  /** The assignment belongs to the template, and all rows of both are there. */
  predicate Present(s: State, a: nat, t: nat) {
    && a in s.assignments && s.assignments[a].template == t && t in s.templates && s.assignments[a].instance in s.instances
  }

  /** A target is published when its instance is ready and it carries the source or Coder imports it. */
  predicate Succeeds(s: State, a: nat, t: nat, commit: string, revision: nat, imported: Import) {
    && Present(s, a, t) && Laws.Reachable(s, s.assignments[a].instance)
    && (Laws.Carries(Laws.Row(s, a), commit, revision) || imported.Some?)
  }

  /** The deployment row of a target afterwards: as before when its instance is not ready or it carries the
      source, else with what Coder answered. */
  function After(s: State, a: nat, t: nat, commit: string, revision: nat, imported: Import): Option<Deployment>
    requires a in s.assignments
  {
    var d := Laws.Row(s, a);
    if !Present(s, a, t) || !Laws.Reachable(s, s.assignments[a].instance) || Laws.Carries(d, commit, revision)
    then s.assignments[a].deployment
    else if imported.None? then
      Some(Deployment(Error, d.templateId, if d.targetCommit == Some(commit) && d.targetRevision == Some(revision) then d.versionId else None,
                      Some(commit), Some(revision), d.appliedCommit, d.appliedRevision))
    else
      Some(Deployment(Success, Some(imported.value.0), Some(imported.value.1), Some(commit), Some(revision), Some(commit), Some(revision)))
  }

  function WithDeployment(assignments: map<nat, Assignment>, a: nat, d: Option<Deployment>): map<nat, Assignment>
    requires a in assignments
  {
    assignments[a := assignments[a].(deployment := d)]
  }

  /** The attempt may write to the target, which is one of its template. */
  predicate Held(s: State, c: Claim, a: nat, t: nat) {
    Laws.Fenced(s, c, a) && s.assignments[a].template == t
  }

  /** What opening a target that the attempt holds does to its row and to the worker. */
  lemma Opens(s: State, c: Claim, l: Local, a: nat, t: nat, commit: string, revision: nat)
    requires Stands(s, c, l, a, commit, revision) && l.Publishing? && !l.open && t == TemplateOf(s, c) && Held(s, c, a, t)
    ensures var s', d := OpenTarget(s, c), Laws.Row(s, a);
            if !Laws.Reachable(s, s.assignments[a].instance) then s' == s.(workers := s.workers[c := Handled(l, false)])
            else if Laws.Carries(d, commit, revision) then s' == s.(workers := s.workers[c := Handled(l, true)])
            else
              && s'.workers == s.workers[c := l.(open := true)] && s' == s.(assignments := s'.assignments, workers := s'.workers)
              && s'.assignments == WithDeployment(s.assignments, a, Some(Deployment(Running, d.templateId,
                   if d.targetCommit == Some(commit) && d.targetRevision == Some(revision) then d.versionId else None,
                   Some(commit), Some(revision), d.appliedCommit, d.appliedRevision)))
  {
    hide Laws.Fenced, OpenTarget, Laws.Reachable;
    Laws.TargetOpened(s, c, l, a);
  }

  /** A target that the attempt does not hold is skipped when its rows are gone, and stops the worker
      otherwise. */
  lemma Skips(s: State, c: Claim, l: Local, a: nat, t: nat, commit: string, revision: nat)
    requires Stands(s, c, l, a, commit, revision) && l.Publishing? && !l.open && t == TemplateOf(s, c) && !Held(s, c, a, t)
    ensures OpenTarget(s, c) ==
            if Laws.RunsAttempt(s.core, c) && !Present(s, a, t) then s.(workers := s.workers[c := Handled(l, false)]) else s
  {
    hide Laws.Fenced, OpenTarget, Laws.RunsAttempt;
    Laws.TargetMissed(s, c, l, a);
  }

  /** The outcomes of opening leave different things in the worker's hands. */
  lemma OpeningsDiffer(l: Local)
    requires l.Publishing? && !l.open
    ensures Handled(l, false) != Handled(l, true) && Handled(l, false) != l && Handled(l, true) != l
    ensures l.(open := true) != l && l.(open := true) != Handled(l, false) && l.(open := true) != Handled(l, true)
    ensures Handled(l.(open := true), false) == Handled(l, false) && Handled(l.(open := true, known := true), true) == Handled(l, true)
  {}

  /** Writing a deployment takes no target away from the attempt. */
  lemma StillHeld(s: State, s': State, c: Claim, a: nat, t: nat, d: Option<Deployment>)
    requires Held(s, c, a, t) && s'.core == s.core && s'.instances == s.instances && s'.templates == s.templates
    requires s'.assignments == WithDeployment(s.assignments, a, d)
    ensures Held(s', c, a, t) && OwnsTarget(s', c, a)
  {
    Laws.FencedExactly(s', c, a);
  }

  /** A failed import. */
  lemma FailsTo(s: State, c: Claim, l: Local, a: nat, commit: string, revision: nat)
    requires Stands(s, c, l, a, commit, revision) && l.open && Laws.Fenced(s, c, a) && s.assignments[a].deployment.Some?
    ensures var s', d := CloseTarget(s, c, false), s.assignments[a].deployment.value;
            && s' == s.(assignments := s'.assignments, workers := s.workers[c := Handled(l, false)])
            && s'.assignments == WithDeployment(s.assignments, a, Some(d.(status := Error)))
  {
    hide Laws.Fenced, CloseTarget;
    Laws.TargetClosed(s, c, l, a, false);
  }

  /** A successful import: the identifiers are stored, then the outcome. */
  lemma PublishesTo(s: State, c: Claim, l: Local, a: nat, t: nat, commit: string, revision: nat, template: nat, version: nat)
    requires Stands(s, c, l, a, commit, revision) && l.open && Held(s, c, a, t) && s.assignments[a].deployment.Some?
    ensures var s', d := CloseTarget(StoreRemoteIds(s, c, Some(template), Some(version)), c, true), s.assignments[a].deployment.value;
            && s' == s.(assignments := s'.assignments, workers := s.workers[c := Handled(l.(known := true), true)])
            && s'.assignments == WithDeployment(s.assignments, a,
                 Some(Deployment(Success, Some(template), Some(version), d.targetCommit, d.targetRevision, Some(commit), Some(revision))))
  {
    hide Laws.Fenced, CloseTarget, StoreRemoteIds;
    Laws.IdentifiersStored(s, c, l, a, Some(template), Some(version));
    var s1 := StoreRemoteIds(s, c, Some(template), Some(version));
    StillHeld(s, s1, c, a, t, s1.assignments[a].deployment);
    Laws.TargetClosed(s1, c, l.(known := true), a, true);
  }

  /** The deployment that an import leaves. */
  function Ended(d: Deployment, commit: string, revision: nat, imported: Import): Deployment {
    match imported
    case None => d.(status := Error)
    case Some((template, version)) =>
      Deployment(Success, Some(template), Some(version), d.targetCommit, d.targetRevision, Some(commit), Some(revision))
  }

  /** What becomes of one target: if the attempt holds it, it is published exactly when it can, with the row that
      the answer calls for; if not, it is skipped or the worker stops, and nothing is written. */
  ghost predicate Synced(s: State, assignments': map<nat, Assignment>, c: Claim, a: nat, t: nat, commit: string, revision: nat,
                         imported: Import, r: Outcome) {
    if Held(s, c, a, t) then
      && r == (if Succeeds(s, a, t, commit, revision, imported) then Published else Failed)
      && assignments' == WithDeployment(s.assignments, a, After(s, a, t, commit, revision, imported))
    else
      && assignments' == s.assignments
      && r == if Laws.RunsAttempt(s.core, c) && !Present(s, a, t) then Failed else Stopped
  }

  /** What an import makes of the opened row is what is called for. */
  lemma ImportSettles(s: State, assignments: map<nat, Assignment>, c: Claim, a: nat, t: nat, commit: string, revision: nat, imported: Import)
    requires Held(s, c, a, t) && Laws.Reachable(s, s.assignments[a].instance) && !Laws.Carries(Laws.Row(s, a), commit, revision)
    requires var d := Laws.Row(s, a);
             assignments == WithDeployment(s.assignments, a, Some(Deployment(Running, d.templateId,
               if d.targetCommit == Some(commit) && d.targetRevision == Some(revision) then d.versionId else None,
               Some(commit), Some(revision), d.appliedCommit, d.appliedRevision)))
    ensures Synced(s, WithDeployment(assignments, a, Some(Ended(assignments[a].deployment.value, commit, revision, imported))),
                   c, a, t, commit, revision, imported, if imported.Some? then Published else Failed)
  {
    HeldIsPresent(s, c, a, t);
    hide Held, Laws.Reachable, Laws.Carries, Laws.RunsAttempt, Present;
  }

  lemma NothingToDo(s: State, c: Claim, a: nat, t: nat, commit: string, revision: nat, imported: Import)
    requires Held(s, c, a, t)
    ensures !Laws.Reachable(s, s.assignments[a].instance) ==> Synced(s, s.assignments, c, a, t, commit, revision, imported, Failed)
    ensures Laws.Reachable(s, s.assignments[a].instance) && Laws.Carries(Laws.Row(s, a), commit, revision) ==>
              Synced(s, s.assignments, c, a, t, commit, revision, imported, Published)
  {
    HeldIsPresent(s, c, a, t);
    SameDeployment(s.assignments, a);
    hide Held, Laws.Reachable, Laws.Carries, Laws.RunsAttempt, Present, WithDeployment;
  }

  lemma NothingHeld(s: State, c: Claim, a: nat, t: nat, commit: string, revision: nat, imported: Import)
    requires !Held(s, c, a, t)
    ensures Synced(s, s.assignments, c, a, t, commit, revision, imported,
                   if Laws.RunsAttempt(s.core, c) && !Present(s, a, t) then Failed else Stopped)
  {
    hide Held, Laws.RunsAttempt, Present, Succeeds, After, WithDeployment;
  }

  /** The preparation settles the target, unless an import has to. */
  lemma PreparationSettles(s: State, s': State, c: Claim, l: Local, a: nat, t: nat, commit: string, revision: nat, imported: Import, p: Preparation)
    requires Stands(s, c, l, a, commit, revision) && l.Publishing? && !l.open && t == TemplateOf(s, c) && s' == OpenTarget(s, c)
    requires c in s'.workers
    requires p.ClaimLost? ==> s' == s
    requires p.TargetFailed? ==> s'.workers[c] == Handled(l, false)
    requires p.AlreadyApplied? ==> s'.workers[c] == Handled(l, true)
    requires p.Prepared? ==> s'.workers[c] == l.(open := true)
    ensures p.ClaimLost? ==> Synced(s, s'.assignments, c, a, t, commit, revision, imported, Stopped)
    ensures p.TargetFailed? ==> Synced(s, s'.assignments, c, a, t, commit, revision, imported, Failed)
    ensures p.AlreadyApplied? ==> Synced(s, s'.assignments, c, a, t, commit, revision, imported, Published)
    ensures p.Prepared? ==>
              && Held(s', c, a, t) && a in s'.assignments && s'.assignments[a].deployment.Some?
              && Synced(s, WithDeployment(s'.assignments, a, Some(Ended(s'.assignments[a].deployment.value, commit, revision, imported))),
                        c, a, t, commit, revision, imported, if imported.Some? then Published else Failed)
  {
    assert c in s.workers && s.workers[c] == l;
    OpeningsDiffer(l);
    hide Stands, OpenTarget, TemplateOf, Handled, Held, Laws.Reachable, Laws.Carries, Laws.RunsAttempt, Laws.Row, Present, Synced, Ended;
    if Held(s, c, a, t) {
      assert a in s.assignments by { HeldIsPresent(s, c, a, t); }
      Opens(s, c, l, a, t, commit, revision);
      NothingToDo(s, c, a, t, commit, revision, imported);
      if p.Prepared? {
        StillHeld(s, s', c, a, t, s'.assignments[a].deployment);
        ImportSettles(s, s'.assignments, c, a, t, commit, revision, imported);
      }
    } else {
      Skips(s, c, l, a, t, commit, revision);
      NothingHeld(s, c, a, t, commit, revision, imported);
    }
  }

  /** `sync_template_target`: a target that is already applied costs no import. */
  method SyncTarget(db: Session, c: Claim, ghost l: Local, a: nat, t: nat, commit: string, revision: nat, imported: Import)
    returns (r: Outcome)
    requires l.Publishing? && Stands(db.View(), c, l, a, commit, revision) && !l.open && !l.known && t == TemplateOf(db.View(), c)
    modifies db`assignments, db`workers
    ensures !r.Stopped? ==> c in db.workers && db.workers[c] == Handled(l, r.Published?)
    ensures r.Published? ==> IsApplied(db.assignments, a, commit, revision)
    ensures OthersKept(old(db.assignments), db.assignments, [a])
    ensures Synced(old(db.View()), db.assignments, c, a, t, commit, revision, imported, r)
  {
    assert c in db.workers && db.workers[c] == l;
    assert Handled(l.(open := true), imported.Some?) == Handled(l, imported.Some?);
    hide Stands, OpenTarget, IsApplied, TemplateOf, Held, Handled, Synced, Ended;
    ghost var s := db.View();
    var p := PrepareDeployment(db, c, l, a, t, commit, revision);
    PreparationSettles(s, db.View(), c, l, a, t, commit, revision, imported, p);
    if p.ClaimLost? { return Stopped; }
    if p.TargetFailed? { return Failed; }
    if p.AlreadyApplied? { return Published; }
    StillStands(s, db.View(), c, l, l.(open := true), a, commit, revision);
    r := ImportTarget(db, c, l.(open := true), a, t, commit, revision, imported);
  }

  /** The part of it that talks to Coder: what it answered is stored before the outcome. */
  method ImportTarget(db: Session, c: Claim, ghost l: Local, a: nat, t: nat, commit: string, revision: nat, imported: Import)
    returns (r: Outcome)
    requires l.Publishing? && Stands(db.View(), c, l, a, commit, revision) && l.open && !l.known
    requires Held(db.View(), c, a, t) && HasDeployment(db.assignments, a)
    modifies db`assignments, db`workers
    ensures r == (if imported.Some? then Published else Failed)
    ensures c in db.workers && db.workers[c] == Handled(l, imported.Some?)
    ensures imported.Some? ==> IsApplied(db.assignments, a, commit, revision)
    ensures OthersKept(old(db.assignments), db.assignments, [a])
    ensures db.assignments == WithDeployment(old(db.assignments), a, Some(Ended(old(db.assignments)[a].deployment.value, commit, revision, imported)))
  {
    ghost var s := db.View();
    StillHeld(s, s, c, a, t, s.assignments[a].deployment) by { SameDeployment(s.assignments, a); }
    assert c in s.workers && s.workers[c] == l;
    assert Handled(l.(known := true), true) == Handled(l, true);
    hide Stands, OpenTarget, StoreRemoteIds, CloseTarget, OwnsTarget, IsApplied, Held, Handled, Laws.Fenced;
    if imported.None? {
      FailsTo(s, c, l, a, commit, revision) by { HeldIsPresent(s, c, a, t); }
      var closed := FinishDeployment(db, c, l, a, commit, revision, false);
      return if closed then Failed else Stopped;
    }
    PublishesTo(s, c, l, a, t, commit, revision, imported.value.0, imported.value.1);
    StoreKeeps(s, c, l, a, t, commit, revision, imported.value.0, imported.value.1);
    var stored := StoreIds(db, c, l, a, commit, revision, Some(imported.value.0), Some(imported.value.1));
    StillStands(s, db.View(), c, l, l.(known := true), a, commit, revision);
    var closed := FinishDeployment(db, c, l.(known := true), a, commit, revision, true);
    r := if closed then Published else Stopped;
  }

  lemma StoreKeeps(s: State, c: Claim, l: Local, a: nat, t: nat, commit: string, revision: nat, template: nat, version: nat)
    requires Stands(s, c, l, a, commit, revision) && l.open && Held(s, c, a, t) && s.assignments[a].deployment.Some?
    ensures OwnsTarget(StoreRemoteIds(s, c, Some(template), Some(version)), c, a)
  {
    hide Laws.Fenced, StoreRemoteIds;
    Laws.IdentifiersStored(s, c, l, a, Some(template), Some(version));
    var s1 := StoreRemoteIds(s, c, Some(template), Some(version));
    StillHeld(s, s1, c, a, t, s1.assignments[a].deployment);
  }

  lemma SameDeployment(assignments: map<nat, Assignment>, a: nat)
    requires a in assignments
    ensures WithDeployment(assignments, a, assignments[a].deployment) == assignments
  {}

  lemma HeldIsPresent(s: State, c: Claim, a: nat, t: nat)
    requires Held(s, c, a, t)
    ensures Present(s, a, t) && Laws.RunsAttempt(s.core, c) && Laws.Fenced(s, c, a)
  {}

  datatype Result = ClaimGone | TargetsFailed(count: nat) | Completed(owned: bool)

  /** The running job of this attempt is the synchronisation of its template, and the template says so. */
  predicate InForce(s: State, c: Claim) {
    && Laws.RunsAttempt(s.core, c) && s.core.jobs[c.job].name == TemplateSync
    && c.resource == Some(TemplateRow(Id(c))) && TemplateRow(Id(c)) in s.core.life
    && s.core.life[TemplateRow(Id(c))] == Life(Syncing, Running, Some(c.job), Some(c.step))
  }

  /** Such an attempt owns its job, may write to every target that is there, and stays current through a
      heartbeat. */
  lemma InForceHolds(s: State, c: Claim, a: nat, now: int)
    requires InForce(s, c)
    ensures Owned(s.core, c)
    ensures Held(s, c, a, Id(c)) <==> Present(s, a, Id(c))
    ensures InForce(s.(core := HeartbeatExecution(s.core, c, now)), c)
  {}

  lemma StaysCurrent(s: State, s': State, c: Claim)
    requires InForce(s, c) && s'.core == s.core
    ensures InForce(s', c)
  {}

  /** Everything but the deployment rows and the heartbeat is as it was. */
  ghost predicate SameSurroundings(s: State, s': State) {
    s'.instances == s.instances && s'.templates == s.templates && s'.core.life == s.core.life
  }

  lemma SameTarget(s: State, s': State, a: nat, t: nat, commit: string, revision: nat, imported: Import)
    requires SameSurroundings(s, s') && (a in s'.assignments <==> a in s.assignments)
    requires a in s.assignments ==> s'.assignments[a] == s.assignments[a]
    ensures Succeeds(s', a, t, commit, revision, imported) <==> Succeeds(s, a, t, commit, revision, imported)
    ensures a in s.assignments ==> After(s', a, t, commit, revision, imported) == After(s, a, t, commit, revision, imported)
  {}

  /** The targets that a run of the loop fails to publish. */
  function Failing(s: State, c: Claim, targets: seq<nat>, commit: string, revision: nat, imports: nat -> Import): set<nat> {
    set a <- targets | !Succeeds(s, a, Id(c), commit, revision, imports(a))
  }

  /** The targets have the rows that their answers call for, and the other assignments are as they were. */
  ghost predicate Handed(s: State, assignments': map<nat, Assignment>, c: Claim, targets: seq<nat>, commit: string, revision: nat, imports: nat -> Import) {
    && assignments'.Keys == s.assignments.Keys
    && forall a <- s.assignments :: assignments'[a] ==
         if a in targets then s.assignments[a].(deployment := After(s, a, Id(c), commit, revision, imports(a))) else s.assignments[a]
  }

  /** One more target. */
  lemma HandsNext(s: State, s': State, assignments': map<nat, Assignment>, c: Claim, targets: seq<nat>, k: nat, commit: string, revision: nat, imports: nat -> Import)
    requires k < |targets| && Distinct(targets) && SameSurroundings(s, s')
    requires Handed(s, s'.assignments, c, targets[..k], commit, revision, imports)
    requires var a := targets[k];
             assignments' == if a in s'.assignments then WithDeployment(s'.assignments, a, After(s', a, Id(c), commit, revision, imports(a)))
                             else s'.assignments
    ensures Handed(s, assignments', c, targets[..k + 1], commit, revision, imports)
    ensures Succeeds(s', targets[k], Id(c), commit, revision, imports(targets[k])) <==> Succeeds(s, targets[k], Id(c), commit, revision, imports(targets[k]))
  {
    var a := targets[k];
    assert a !in targets[..k];
    assert forall b :: b in targets[..k + 1] <==> b == a || b in targets[..k];
    SameTarget(s, s', a, Id(c), commit, revision, imports(a));
    hide After, Succeeds;
  }

  lemma FailsNext(s: State, c: Claim, targets: seq<nat>, k: nat, commit: string, revision: nat, imports: nat -> Import)
    requires k < |targets| && Distinct(targets)
    ensures |Failing(s, c, targets[..k + 1], commit, revision, imports)|
            == |Failing(s, c, targets[..k], commit, revision, imports)|
               + if Succeeds(s, targets[k], Id(c), commit, revision, imports(targets[k])) then 0 else 1
  {
    var a := targets[k];
    var before := Failing(s, c, targets[..k], commit, revision, imports);
    assert a !in targets[..k];
    assert forall b :: b in targets[..k + 1] <==> b == a || b in targets[..k];
    assert Failing(s, c, targets[..k + 1], commit, revision, imports)
        == before + if Succeeds(s, a, Id(c), commit, revision, imports(a)) then {} else {a};
  }

  /** Where the loop of a current attempt stands after the first `k` targets. */
  ghost predicate Progress(s: State, s': State, c: Claim, targets: seq<nat>, k: nat, failures: nat, commit: string, revision: nat, imports: nat -> Import)
    requires k <= |targets|
  {
    InForce(s, c) ==>
      && InForce(s', c) && SameSurroundings(s, s') && Handed(s, s'.assignments, c, targets[..k], commit, revision, imports)
      && failures == |Failing(s, c, targets[..k], commit, revision, imports)|
  }

  lemma ProgressStarts(s: State, c: Claim, targets: seq<nat>, commit: string, revision: nat, imports: nat -> Import)
    ensures Progress(s, s, c, targets, 0, 0, commit, revision, imports)
  {
    assert Handed(s, s.assignments, c, targets[..0], commit, revision, imports);
    assert Failing(s, c, targets[..0], commit, revision, imports) == {};
  }

  /** What a turn on one target does for a current attempt. */
  ghost predicate Turned(s: State, s': State, c: Claim, a: nat, commit: string, revision: nat, imported: Import, r: Outcome) {
    && SameSurroundings(s, s')
    && (InForce(s, c) ==>
          && InForce(s', c) && r == (if Succeeds(s, a, Id(c), commit, revision, imported) then Published else Failed)
          && s'.assignments == if a in s.assignments then WithDeployment(s.assignments, a, After(s, a, Id(c), commit, revision, imported))
                               else s.assignments)
  }

  lemma ProgressNext(s: State, s': State, s'': State, c: Claim, targets: seq<nat>, k: nat, failures: nat, r: Outcome, commit: string, revision: nat, imports: nat -> Import)
    requires k < |targets| && Distinct(targets) && Progress(s, s', c, targets, k, failures, commit, revision, imports)
    requires Turned(s', s'', c, targets[k], commit, revision, imports(targets[k]), r)
    ensures Progress(s, s'', c, targets, k + 1, if r.Failed? then failures + 1 else failures, commit, revision, imports)
  {
    hide InForce, Handed, Failing, Succeeds, After, WithDeployment;
    if InForce(s, c) {
      HandsNext(s, s', s''.assignments, c, targets, k, commit, revision, imports);
      FailsNext(s, c, targets, k, commit, revision, imports);
    }
  }

  lemma ProgressEnds(s: State, s': State, c: Claim, targets: seq<nat>, failures: nat, commit: string, revision: nat, imports: nat -> Import)
    requires Progress(s, s', c, targets, |targets|, failures, commit, revision, imports) && InForce(s, c)
    ensures Handed(s, s'.assignments, c, targets, commit, revision, imports) && failures == |Failing(s, c, targets, commit, revision, imports)|
    ensures Owned(s'.core, c) && Owned(s.core, c)
  {
    assert targets[..|targets|] == targets;
    InForceHolds(s', c, 0, 0);
    InForceHolds(s, c, 0, 0);
  }

  /** What holds after the first `k` targets. */
  ghost predicate Underway(s: State, s': State, c: Claim, targets: seq<nat>, k: nat, failures: nat, commit: string, revision: nat, imports: nat -> Import) {
    && k <= |targets| && c in s'.workers && s'.workers[c] == Publishing(targets, k, failures, commit, revision, false, false)
    && (failures == 0 ==> AllApplied(s'.assignments, targets, k, commit, revision))
    && OthersKept(s.assignments, s'.assignments, targets[..k])
    && (if k == 0 then s' == s && failures == 0 else Owned(s.core, c))
    && Progress(s, s', c, targets, k, failures, commit, revision, imports)
  }

  lemma Starts(s: State, c: Claim, targets: seq<nat>, commit: string, revision: nat, imports: nat -> Import)
    requires c in s.workers && s.workers[c] == Publishing(targets, 0, 0, commit, revision, false, false)
    ensures Underway(s, s, c, targets, 0, 0, commit, revision, imports)
  {
    assert OthersKept(s.assignments, s.assignments, targets[..0]);
    assert AllApplied(s.assignments, targets, 0, commit, revision);
    hide OthersKept, AllApplied, Progress, Owned;
    ProgressStarts(s, c, targets, commit, revision, imports);
  }

  lemma GoesOn(s: State, s': State, s'': State, c: Claim, targets: seq<nat>, k: nat, failures: nat, r: Outcome, commit: string, revision: nat, imports: nat -> Import)
    requires Underway(s, s', c, targets, k, failures, commit, revision, imports) && k < |targets| && Distinct(targets)
    requires !r.Stopped? && Turned(s', s'', c, targets[k], commit, revision, imports(targets[k]), r)
    requires OthersKept(s'.assignments, s''.assignments, [targets[k]]) && Owned(s'.core, c)
    requires r.Published? ==> IsApplied(s''.assignments, targets[k], commit, revision)
    requires c in s''.workers
    requires s''.workers[c] == Publishing(targets, k + 1, if r.Published? then failures else failures + 1, commit, revision, false, false)
    ensures Underway(s, s'', c, targets, k + 1, if r.Published? then failures else failures + 1, commit, revision, imports)
  {
    hide OthersKept, AllApplied, Progress, Owned, Turned, IsApplied;
    OthersKeptNext(s.assignments, s'.assignments, s''.assignments, targets, k);
    ProgressNext(s, s', s'', c, targets, k, failures, r, commit, revision, imports);
    if failures == 0 && r.Published? { StayApplied(s'.assignments, s''.assignments, targets, k, commit, revision); }
  }

  lemma TurnStops(s: State, s': State, c: Claim, targets: seq<nat>, k: nat, failures: nat, commit: string, revision: nat, imports: nat -> Import)
    requires Underway(s, s', c, targets, k, failures, commit, revision, imports)
    ensures k == 0 ==> s' == s
    ensures k > 0 ==> Owned(s.core, c)
    ensures InForce(s, c) ==> InForce(s', c)
    ensures OthersKept(s.assignments, s'.assignments, targets[..k])
  {
    hide OthersKept, AllApplied, Owned, InForce;
  }

  /** The loop of the synchronisation step: one failed target does not keep the others from being published. */
  method SyncTargets(
    db: Session, c: Claim, targets: seq<nat>, commit: string, revision: nat, imports: nat -> Import, now: int)
    returns (failures: Option<nat>)
    requires c in db.workers && c.step == Step.SyncTemplate && Distinct(targets)
    requires db.workers[c] == Publishing(targets, 0, 0, commit, revision, false, false)
    modifies db`assignments, db`workers, db.rows`jobs
    ensures failures.Some? ==> Underway(old(db.View()), db.View(), c, targets, |targets|, failures.value, commit, revision, imports)
    ensures failures.None? ==>
              && targets != [] && !InForce(old(db.View()), c) && OthersKept(old(db.assignments), db.assignments, targets)
              && (!Owned(old(db.rows.Tables()), c) ==> db.assignments == old(db.assignments))
  {
    ghost var s := db.View();
    ghost var here := s;
    Starts(s, c, targets, commit, revision, imports);
    hide Underway, OthersKept, IsApplied, Owned, InForce, Turned;
    var k, failed := 0, 0;
    while k < |targets|
      invariant k <= |targets| && c in db.workers && here == db.View()
      invariant db.workers[c] == Publishing(targets, k, failed, commit, revision, false, false)
      invariant Underway(s, here, c, targets, k, failed, commit, revision, imports)
    {
      TurnStops(s, here, c, targets, k, failed, commit, revision, imports);
      var outcome := SyncNext(db, c, targets, k, failed, commit, revision, imports(targets[k]), now);
      if outcome.Stopped? {
        OthersKeptNext(s.assignments, here.assignments, db.assignments, targets, k);
        return None;
      }
      GoesOn(s, here, db.View(), c, targets, k, failed, outcome, commit, revision, imports);
      if outcome.Failed? { failed := failed + 1; }
      here := db.View();
      k := k + 1;
    }
    failures := Some(failed);
  }

  /** After the last target. */
  lemma Finishes(s: State, s': State, c: Claim, targets: seq<nat>, failures: nat, commit: string, revision: nat, imports: nat -> Import)
    requires Underway(s, s', c, targets, |targets|, failures, commit, revision, imports)
    ensures failures == 0 ==> forall k | 0 <= k < |targets| :: IsApplied(s'.assignments, targets[k], commit, revision)
    ensures OthersKept(s.assignments, s'.assignments, targets)
    ensures if targets == [] then s' == s && failures == 0 else Owned(s.core, c)
    ensures InForce(s, c) ==>
              && Handed(s, s'.assignments, c, targets, commit, revision, imports)
              && failures == |Failing(s, c, targets, commit, revision, imports)| && Owned(s'.core, c) && Owned(s.core, c)
  {
    assert targets[..|targets|] == targets;
    hide OthersKept, Owned, InForce, Handed, Failing, IsApplied, Progress;
    if InForce(s, c) { ProgressEnds(s, s', c, targets, failures, commit, revision, imports); }
  }

  /** The synchronisation step after the fetch. A current attempt hands every target the row that its answer
      calls for, counts exactly the failures and ends the job exactly when there is none, with every target
      carrying the fetched source; a lost one writes nothing. */
  method SyncTemplate(
    db: Session, c: Claim, targets: seq<nat>, commit: string, revision: nat, imports: nat -> Import, now: int)
    returns (r: Result)
    requires c in db.workers && c.step == Step.SyncTemplate && Distinct(targets)
    requires db.workers[c] == Publishing(targets, 0, 0, commit, revision, false, false)
    modifies db`assignments, db`workers, db.rows
    ensures r.Completed? ==> forall k | 0 <= k < |targets| :: IsApplied(db.assignments, targets[k], commit, revision)
    ensures r.TargetsFailed? ==> r.count > 0
    ensures r == Completed(true) ==> c.job in db.rows.jobs && db.rows.jobs[c.job].status == Success
    ensures OthersKept(old(db.assignments), db.assignments, targets)
    ensures InForce(old(db.View()), c) ==>
              var failing := Failing(old(db.View()), c, targets, commit, revision, imports);
              && r == (if failing == {} then Completed(true) else TargetsFailed(|failing|))
              && Handed(old(db.View()), db.assignments, c, targets, commit, revision, imports)
    ensures !Owned(old(db.rows.Tables()), c) ==>
              r == (if targets == [] then Completed(false) else ClaimGone) && db.assignments == old(db.assignments)
  {
    hide IsApplied, OthersKept, CompleteExecution, Owned, InForce, Handed, Failing, Underway;
    ghost var s := db.View();
    var failures := SyncTargets(db, c, targets, commit, revision, imports, now);
    if failures.None? { return ClaimGone; }
    Finishes(s, db.View(), c, targets, failures.value, commit, revision, imports);
    if failures.value > 0 { return TargetsFailed(failures.value); }
    var owned := db.rows.CompleteExecution(c, None, false);
    r := Completed(owned);
  }

  /** One turn of the loop: prove the claim current, then publish the next target. */
  method SyncNext(
    db: Session, c: Claim, targets: seq<nat>, k: nat, ghost failures: nat, commit: string, revision: nat, imported: Import, now: int)
    returns (r: Outcome)
    requires k < |targets| && c in db.workers && c.step == Step.SyncTemplate
    requires db.workers[c] == Publishing(targets, k, failures, commit, revision, false, false)
    modifies db`assignments, db`workers, db.rows`jobs
    ensures r.Published? ==> IsApplied(db.assignments, targets[k], commit, revision)
    ensures OthersKept(old(db.assignments), db.assignments, [targets[k]])
    ensures !r.Stopped? ==> c in db.workers && Owned(old(db.rows.Tables()), c)
    ensures r.Published? ==> db.workers[c] == Publishing(targets, k + 1, failures, commit, revision, false, false)
    ensures r.Failed? ==> db.workers[c] == Publishing(targets, k + 1, failures + 1, commit, revision, false, false)
    ensures !Owned(old(db.rows.Tables()), c) ==> db.assignments == old(db.assignments)
    ensures Turned(old(db.View()), db.View(), c, targets[k], commit, revision, imported, r)
    ensures InForce(old(db.View()), c) ==> !r.Stopped?
  {
    hide Owned, HeartbeatExecution, InForce, Synced;
    ghost var s := db.View();
    var beating := db.rows.HeartbeatExecution(c, now);
    if InForce(s, c) { InForceHolds(s, c, targets[k], now); }
    ghost var s' := db.View();
    if !beating {
      assert SameSurroundings(s, s');
      return Stopped;
    }
    AtTarget(s', c, targets, k, failures, commit, revision);
    hide Stands, TemplateOf, IsApplied, OthersKept;
    r := SyncTarget(db, c, db.workers[c], targets[k], Id(c), commit, revision, imported);
    assert SameSurroundings(s, db.View());
    hide Succeeds, After, WithDeployment;
    if InForce(s, c) {
      SyncedTurn(s, s', db.assignments, c, targets[k], commit, revision, imported, r, now);
      StaysCurrent(s', db.View(), c);
    }
  }

  lemma SyncedTurn(s: State, s': State, assignments': map<nat, Assignment>, c: Claim, a: nat, commit: string, revision: nat, imported: Import, r: Outcome, now: int)
    requires InForce(s, c) && s' == s.(core := HeartbeatExecution(s.core, c, now))
    requires Synced(s', assignments', c, a, Id(c), commit, revision, imported, r)
    ensures r == if Succeeds(s, a, Id(c), commit, revision, imported) then Published else Failed
    ensures assignments' ==
            if a in s.assignments then WithDeployment(s.assignments, a, After(s, a, Id(c), commit, revision, imported)) else s.assignments
  {
    InForceHolds(s, c, a, now);
    InForceHolds(s', c, a, now);
    assert Laws.RunsAttempt(s'.core, c);
    SameTarget(s, s', a, Id(c), commit, revision, imported);
    assert !Present(s', a, Id(c)) && a in s.assignments ==> After(s', a, Id(c), commit, revision, imported) == s.assignments[a].deployment;
    if a in s.assignments { SameDeployment(s.assignments, a); }
    assert Succeeds(s', a, Id(c), commit, revision, imported) ==> Present(s', a, Id(c));
    hide InForce, Held, Present, Succeeds, After, Owned, HeartbeatExecution, WithDeployment, Laws.RunsAttempt;
  }

  /** The worker of a synchronisation in front of its next target. */
  lemma AtTarget(s: State, c: Claim, targets: seq<nat>, k: nat, failures: nat, commit: string, revision: nat)
    requires k < |targets| && c in s.workers && c.step == Step.SyncTemplate
    requires s.workers[c] == Publishing(targets, k, failures, commit, revision, false, false)
    ensures Stands(s, c, s.workers[c], targets[k], commit, revision) && TemplateOf(s, c) == Id(c)
    ensures forall ok :: Handled(s.workers[c], ok)
                         == Publishing(targets, k + 1, if ok then failures else failures + 1, commit, revision, false, false)
  {
  }

  lemma OthersKeptNext(first: map<nat, Assignment>, before: map<nat, Assignment>, after: map<nat, Assignment>, targets: seq<nat>, k: nat)
    requires k < |targets| && OthersKept(first, before, targets[..k]) && OthersKept(before, after, [targets[k]])
    ensures OthersKept(first, after, targets[..k + 1]) && OthersKept(first, after, targets)
  {
    forall a | a in first && a !in targets[..k + 1] ensures after[a] == first[a] {
      assert targets[..k + 1] == targets[..k] + [targets[k]];
    }
  }

  predicate AllApplied(assignments: map<nat, Assignment>, targets: seq<nat>, k: nat, commit: string, revision: nat)
    requires k <= |targets|
  {
    forall j | 0 <= j < k :: IsApplied(assignments, targets[j], commit, revision)
  }

  lemma StayApplied(
    before: map<nat, Assignment>, after: map<nat, Assignment>, targets: seq<nat>, k: nat, commit: string, revision: nat)
    requires k < |targets| && Distinct(targets) && OthersKept(before, after, [targets[k]])
    requires AllApplied(before, targets, k, commit, revision) && IsApplied(after, targets[k], commit, revision)
    ensures AllApplied(after, targets, k + 1, commit, revision)
  {
  }
}
