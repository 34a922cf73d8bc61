/** When the requests on templates, their parameters and their assignments are accepted, and what they
    change. */
module TemplateLaws {
  import opened Records
  import opened Execution
  import opened Store
  import opened ProtocolLaws
  import opened InstanceLaws
  import Parameters
  import TR = TemplateRequests

  predicate Listed(s: State, t: nat) {
    t in s.templates && TemplateRow(t) in s.core.life
  }

  predicate NoBusyAssignment(s: State, t: nat) {
    forall a <- s.assignments :: s.assignments[a].template == t ==> Settled(s.core.life, AssignmentRow(a))
  }

  predicate NoBusyWorkspace(s: State, t: nat) {
    forall w <- s.workspaces :: s.workspaces[w].template == t ==> Settled(s.core.life, WorkspaceRow(w))
  }

  /** The row at rest, without a job; the job it had is gone. */
  predicate Discarded(core: Core, core': Core, t: nat, action: Action)
    requires TemplateRow(t) in core.life
  {
    && core' == core.(jobs := core'.jobs, life := core'.life)
    && core'.life == core.life[TemplateRow(t) := Life(action, Success, None, None)]
    && core'.jobs == if core.life[TemplateRow(t)].job.Some? then core.jobs - {core.life[TemplateRow(t)].job.value} else core.jobs
  }

  lemma BusyExactly(s: State, t: nat)
    ensures NoBusyAssignment(s, t) <==> !TR.ActiveAssignments(s, t)
    ensures NoBusyWorkspace(s, t) <==> !TR.ActiveWorkspaces(s, t)
  {}

  lemma MissingTemplate(s: State, t: nat, source: Source, changed: bool, ok: bool, p: TR.Payload, name: string)
    requires !Listed(s, t)
    ensures TR.UpdateTemplate(s, t, source, changed, ok) == (s, Refused(NotFound)) && TR.DeleteTemplate(s, t) == (s, Refused(NotFound))
    ensures TR.RequestSync(s, t) == (s, Refused(NotFound)) && TR.CreateParameter(s, t, p) == (s, Refused(NotFound))
    ensures TR.UpdateParameter(s, t, p) == (s, Refused(NotFound)) && TR.DeleteParameter(s, t, name) == (s, Refused(NotFound))
  {}

  // ---------- the catalogue ----------

  lemma TemplateAdded(s: State, source: Source, unique: bool)
    ensures var (s', reply) := TR.CreateTemplate(s, source, unique); var t := s.core.nextId;
            if !unique then s' == s && reply == Refused(AlreadyExists)
            else
              && reply == Accepted(None)
              && s' == s.(core := s'.core, templates := s.templates[t := Template(source, 0, map[], map[])])
              && s'.core == s.core.(nextId := t + 1, life := s.core.life[TemplateRow(t) := Life(Created, Success, None, None)])
  {}

  /** Neither a synchronisation nor an assignment nor a workspace of the template is unfinished. */
  predicate Quiet(s: State, t: nat)
    requires Listed(s, t)
  {
    s.core.life[TemplateRow(t)].status == Success && NoBusyAssignment(s, t) && NoBusyWorkspace(s, t)
  }

  predicate QuietRefusal(s: State, t: nat, why: Refusal)
    requires Listed(s, t)
  {
    why == if s.core.life[TemplateRow(t)].status != Success then SyncInProgress
           else if !NoBusyAssignment(s, t) then AssignmentsInProgress else WorkspacesInProgress
  }

  /** A changed source replaces the old one and leaves the template updated, without a job. */
  lemma SourceReplaced(s: State, t: nat, source: Source, changedModules: bool, compatible: bool)
    requires Listed(s, t)
    ensures var (s', reply) := TR.UpdateTemplate(s, t, source, changedModules, compatible);
            var changed := source != s.templates[t].source || changedModules;
            && (reply.Accepted? <==> Quiet(s, t) && (changed ==> compatible))
            && (reply.Refused? ==> s' == s && if Quiet(s, t) then reply.why == BadConfiguration else QuietRefusal(s, t, reply.why))
            && (reply.Accepted? ==> reply.job == None)
            && (reply.Accepted? && !changed ==> s' == s)
            && (reply.Accepted? && changed ==>
                  && s' == s.(core := s'.core, templates := s.templates[t := s.templates[t].(source := source)])
                  && Discarded(s.core, s'.core, t, Updated))
  {
    BusyExactly(s, t);
    hide NoBusyAssignment, NoBusyWorkspace, TR.ActiveAssignments, TR.ActiveWorkspaces;
  }

  lemma TemplateDropped(s: State, t: nat)
    requires Listed(s, t)
    ensures var (s', reply) := TR.DeleteTemplate(s, t); var row := s.core.life[TemplateRow(t)];
            && (reply.Accepted? <==>
                  && row.status == Success && (forall a <- s.assignments :: s.assignments[a].template != t)
                  && (forall w <- s.workspaces :: s.workspaces[w].template != t))
            && (reply.Refused? ==>
                  s' == s && reply.why == (if row.status != Success then SyncInProgress
                                           else if exists a <- s.assignments :: s.assignments[a].template == t then HasAssignments
                                           else Referenced))
            && (reply.Accepted? ==>
                  && reply.job == None && s' == s.(core := s'.core, templates := s.templates - {t})
                  && s'.core == s.core.(jobs := s'.core.jobs, life := s.core.life - {TemplateRow(t)})
                  && s'.core.jobs == if row.job.Some? then s.core.jobs - {row.job.value} else s.core.jobs)
  {
    LifeWithoutRow(s.core.life, TemplateRow(t), Life(Updated, Success, None, None));
  }

  lemma LifeWithoutRow(life: map<Resource, Life>, k: Resource, row: Life)
    ensures life[k := row] - {k} == life - {k}
  {
    assert (life[k := row] - {k}).Keys == (life - {k}).Keys;
  }

  /** A synchronisation discards the finished job of the template and stages a fresh one. */
  lemma SyncStaged(s: State, t: nat)
    requires Listed(s, t)
    ensures var (s', reply) := TR.RequestSync(s, t); var row := s.core.life[TemplateRow(t)]; var j := s.core.nextId;
            && (reply.Accepted? <==> Quiet(s, t))
            && (reply.Refused? ==> s' == s && QuietRefusal(s, t, reply.why))
            && (reply.Accepted? ==>
                  && reply.job == Some(j) && s' == s.(core := s'.core)
                  && s'.core.life == s.core.life[TemplateRow(t) := Life(Syncing, Pending, Some(j), Some(SyncTemplate))]
                  && j in s'.core.jobs && s'.core.jobs[j] == Job(TemplateSync, SyncTemplate, Some(TemplateRow(t)), SyncTemplate, Pending, 0, None)
                  && s'.core.jobs == (if row.job.Some? then s.core.jobs - {row.job.value} else s.core.jobs)[j := s'.core.jobs[j]]
                  && s'.core.nextId == j + 1 && s'.core.claims == s.core.claims)
  {
    BusyExactly(s, t);
    hide NoBusyAssignment, NoBusyWorkspace, TR.ActiveAssignments, TR.ActiveWorkspaces;
  }

  // ---------- parameters ----------

  predicate Editable(s: State, t: nat)
    requires Listed(s, t)
  {
    s.core.life[TemplateRow(t)].status == Success && NoBusyAssignment(s, t)
  }

  predicate HasParameter(template: Template, name: string) {
    name in template.systemValues || name in template.userParameters
  }

  /** Only the row of one template changes. */
  predicate Edits(s: State, s': State, t: nat, template: Template) {
    s' == s.(templates := s.templates[t := template])
  }

  lemma UserParameterAdded(s: State, t: nat, d: Parameters.Definition)
    requires Listed(s, t)
    ensures var (s', reply) := TR.CreateParameter(s, t, TR.UserPayload(d)); var template := s.templates[t];
            if !Editable(s, t) then s' == s && reply == Refused(SyncInProgress)
            else if HasParameter(template, d.name) then s' == s && reply == Refused(AlreadyExists)
            else reply == Accepted(None) && Edits(s, s', t, template.(userParameters := template.userParameters[d.name := d]))
  {
    BusyExactly(s, t);
    hide NoBusyAssignment, NoBusyWorkspace, TR.ActiveAssignments, TR.ActiveWorkspaces;
  }

  /** A new system value makes every deployment outdated. */
  lemma SystemParameterAdded(s: State, t: nat, name: string, value: string)
    requires Listed(s, t)
    ensures var (s', reply) := TR.CreateParameter(s, t, TR.SystemPayload(name, Some(value))); var template := s.templates[t];
            if !Editable(s, t) then s' == s && reply == Refused(SyncInProgress)
            else if HasParameter(template, name) then s' == s && reply == Refused(AlreadyExists)
            else reply == Accepted(None)
                 && Edits(s, s', t, template.(systemValues := template.systemValues[name := value], revision := template.revision + 1))
  {
    BusyExactly(s, t);
    hide NoBusyAssignment, NoBusyWorkspace, TR.ActiveAssignments, TR.ActiveWorkspaces;
  }

  lemma UserParameterReplaced(s: State, t: nat, d: Parameters.Definition)
    requires Listed(s, t)
    ensures var (s', reply) := TR.UpdateParameter(s, t, TR.UserPayload(d)); var template := s.templates[t];
            if !Editable(s, t) then s' == s && reply == Refused(SyncInProgress)
            else if !HasParameter(template, d.name) then s' == s && reply == Refused(NotFound)
            else if d.name !in template.userParameters then s' == s && reply == Refused(FieldImmutable)
            else reply == Accepted(None) && Edits(s, s', t, template.(userParameters := template.userParameters[d.name := d]))
  {
    BusyExactly(s, t);
    hide NoBusyAssignment, NoBusyWorkspace, TR.ActiveAssignments, TR.ActiveWorkspaces;
  }

  /** A rotation stores the new value and advances the revision; the same value, or none, changes nothing. */
  lemma SystemValueRotated(s: State, t: nat, name: string, value: Option<string>)
    requires Listed(s, t)
    ensures var (s', reply) := TR.UpdateParameter(s, t, TR.SystemPayload(name, value)); var template := s.templates[t];
            if !Editable(s, t) then s' == s && reply == Refused(SyncInProgress)
            else if !HasParameter(template, name) then s' == s && reply == Refused(NotFound)
            else if name !in template.systemValues then s' == s && reply == Refused(FieldImmutable)
            else if value == None || value == Some(template.systemValues[name]) then s' == s && reply == Accepted(None)
            else
              && reply == Accepted(None) && s' == s.(templates := s'.templates)
              && t in s'.templates && s'.templates == s.templates[t := s'.templates[t]]
              && name in s'.templates[t].systemValues && s'.templates[t].systemValues[name] == value.value
              && s'.templates[t].systemValues == template.systemValues[name := value.value]
              && s'.templates[t].revision == template.revision + 1
              && s'.templates[t].source == template.source && s'.templates[t].userParameters == template.userParameters
  {
    BusyExactly(s, t);
    hide NoBusyAssignment, NoBusyWorkspace, TR.ActiveAssignments, TR.ActiveWorkspaces;
  }

  lemma ParameterDropped(s: State, t: nat, name: string)
    requires Listed(s, t)
    ensures var (s', reply) := TR.DeleteParameter(s, t, name); var template := s.templates[t];
            if !Editable(s, t) then s' == s && reply == Refused(SyncInProgress)
            else if name in template.systemValues then
              reply == Accepted(None)
              && Edits(s, s', t, template.(systemValues := template.systemValues - {name}, revision := template.revision + 1))
            else if name in template.userParameters then
              reply == Accepted(None) && Edits(s, s', t, template.(userParameters := template.userParameters - {name}))
            else s' == s && reply == Refused(NotFound)
  {
    BusyExactly(s, t);
    hide NoBusyAssignment, NoBusyWorkspace, TR.ActiveAssignments, TR.ActiveWorkspaces;
  }

  // ---------- assignments ----------

  predicate Absent(s: State, i: nat, t: nat) {
    forall a <- s.assignments :: s.assignments[a].instance != i || s.assignments[a].template != t
  }

  predicate OnlyPair(s: State, a: nat, i: nat, t: nat) {
    a in s.assignments && s.assignments[a].instance == i && s.assignments[a].template == t
    && forall b <- s.assignments :: s.assignments[b].instance == i && s.assignments[b].template == t ==> b == a
  }

  lemma PairFound(s: State, i: nat, t: nat)
    ensures Absent(s, i, t) <==> TR.FindAssignment(s, i, t).None?
    ensures forall a: nat :: OnlyPair(s, a, i, t) ==> TR.FindAssignment(s, i, t) == Some(a)
  {
    if a :| a in s.assignments && s.assignments[a].instance == i && s.assignments[a].template == t {
      assert TR.IsPair(s.assignments, a, i, t);
    }
    forall a: nat | OnlyPair(s, a, i, t) ensures TR.FindAssignment(s, i, t) == Some(a) { assert TR.IsPair(s.assignments, a, i, t); }
  }

  lemma MissingParents(s: State, i: nat, t: nat)
    requires !Known(s, i) || !Listed(s, t)
    ensures TR.PutAssignment(s, i, t) == (s, Refused(NotFound)) && TR.DeleteAssignment(s, i, t) == (s, Refused(NotFound))
  {}

  /** The instance is started and settled, and the template does not synchronise. */
  predicate Mutable(s: State, i: nat, t: nat)
    requires Known(s, i) && Listed(s, t)
  {
    s.instances[i].started && s.core.life[InstanceRow(i)].status == Success && s.core.life[TemplateRow(t)].status == Success
  }

  /** A missing pair is created on a started, settled instance and a settled template. */
  lemma AssignmentAdded(s: State, i: nat, t: nat)
    requires Known(s, i) && Listed(s, t) && Absent(s, i, t)
    ensures var (s', reply) := TR.PutAssignment(s, i, t); var a := s.core.nextId;
            if Mutable(s, i, t) then
              && reply == Accepted(Some(a + 1)) && s' == s.(core := s'.core, assignments := s'.assignments)
              && s'.assignments == s.assignments[a := Assignment(t, i, None)]
              && Staged(s.core, s'.core, a + 1, AssignmentRow(a), AssignmentCreate, CreateTemplate, Creating)
            else
              s' == s && reply == Refused(if s.instances[i].started && s.core.life[InstanceRow(i)].status == Success
                                          then SyncInProgress else InstanceUnavailable)
  {
    PairFound(s, i, t);
    hide TR.FindAssignment, Absent;
  }

  /** Asking again answers what exists: nothing to do for a created pair, the job of one being created; a
      pair that is going away is a conflict. */
  lemma AssignmentRepeated(s: State, i: nat, t: nat, a: nat)
    requires Known(s, i) && Listed(s, t) && OnlyPair(s, a, i, t) && AssignmentRow(a) in s.core.life && Mutable(s, i, t)
    ensures var (s', reply) := TR.PutAssignment(s, i, t); var row := s.core.life[AssignmentRow(a)];
            && s' == s
            && (row.action == Created && row.status == Success ==> reply == Accepted(None))
            && (row.action == Creating && row.status != Success ==> reply == Accepted(row.job) || reply == Refused(JobConflict))
            && (row.action == Deleting ==> reply == Refused(ActionConflict))
  {
    PairFound(s, i, t);
    hide TR.FindAssignment, OnlyPair, TR.ConsistentJob;
  }

  lemma AssignmentGone(s: State, i: nat, t: nat)
    requires Known(s, i) && Listed(s, t) && Absent(s, i, t)
    ensures TR.DeleteAssignment(s, i, t) == (s, Accepted(None))
  {
    PairFound(s, i, t);
    hide TR.FindAssignment, Absent;
  }

  /** A created pair is removed unless a workspace of it is unfinished; a removal under way is answered
      again; a pair being created is a conflict. */
  lemma AssignmentDropped(s: State, i: nat, t: nat, a: nat)
    requires Known(s, i) && Listed(s, t) && OnlyPair(s, a, i, t) && AssignmentRow(a) in s.core.life && Mutable(s, i, t)
    ensures var (s', reply) := TR.DeleteAssignment(s, i, t); var row := s.core.life[AssignmentRow(a)];
            var settled := row.action == Created && row.status == Success;
            var free := forall w <- s.workspaces :: s.workspaces[w].instance == i && s.workspaces[w].template == t ==>
                          Settled(s.core.life, WorkspaceRow(w));
            && (settled && free ==>
                  && reply == Accepted(Some(s.core.nextId)) && s' == s.(core := s'.core)
                  && Staged(s.core, s'.core, s.core.nextId, AssignmentRow(a), AssignmentDelete, DeleteTemplate, Deleting))
            && (!(settled && free) ==> s' == s)
            && (settled && !free ==> reply == Refused(WorkspacesBusy))
            && (row.action == Deleting && row.status != Success ==> reply == Accepted(row.job) || reply == Refused(JobConflict))
            && (row.action == Creating ==> reply == Refused(ActionConflict))
  {
    PairFound(s, i, t);
    hide TR.FindAssignment, OnlyPair, TR.ConsistentJob;
  }

  lemma AssignmentUnavailable(s: State, i: nat, t: nat)
    requires Known(s, i) && Listed(s, t) && !Mutable(s, i, t)
    ensures TR.PutAssignment(s, i, t).0 == s && TR.PutAssignment(s, i, t).1.Refused?
    ensures TR.DeleteAssignment(s, i, t).0 == s && (TR.DeleteAssignment(s, i, t).1.Accepted? <==> Absent(s, i, t))
  {
    PairFound(s, i, t);
    hide TR.FindAssignment, Absent;
  }
}
