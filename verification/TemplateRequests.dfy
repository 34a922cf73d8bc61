/** API requests on catalogue templates, their parameters and their assignments to instances. */
module TemplateRequests {
  import opened Records
  import opened Execution
  import opened Store
  import Parameters

  predicate ActiveAssignments(s: State, t: nat) {
    exists a <- s.assignments :: s.assignments[a].template == t && Busy(s.core.life, AssignmentRow(a))
  }

  predicate ActiveWorkspaces(s: State, t: nat) {
    exists w <- s.workspaces :: s.workspaces[w].template == t && Busy(s.core.life, WorkspaceRow(w))
  }

  /** `unique` says whether the technical name is free. */
  function CreateTemplate(s: State, source: Source, unique: bool): (State, Reply) {
    if !unique then (s, Refused(AlreadyExists))
    else
      var t := s.core.nextId;
      (s.(core := InsertIdle(DrawId(s.core), TemplateRow(t), Created),
          templates := s.templates[t := Template(source, 0, map[], map[])]),
       Accepted(None))
  }

  function TemplateRefusal(s: State, t: nat): Option<Refusal> {
    if t !in s.templates || TemplateRow(t) !in s.core.life then Some(NotFound)
    else if Busy(s.core.life, TemplateRow(t)) then Some(SyncInProgress)
    else if ActiveAssignments(s, t) then Some(AssignmentsInProgress)
    else if ActiveWorkspaces(s, t) then Some(WorkspacesInProgress)
    else None
  }

  /** `compatible` says whether every workspace's modules stay allowed; `changedModules` whether the
      module list changes. */
  function UpdateTemplate(s: State, t: nat, source: Source, changedModules: bool, compatible: bool): (State, Reply) {
    var refusal := TemplateRefusal(s, t);
    if refusal.Some? then (s, Refused(refusal.value))
    else if s.templates[t].source == source && !changedModules then (s, Accepted(None))
    else if !compatible then (s, Refused(BadConfiguration))
    else
      (s.(core := DiscardJob(s.core, TemplateRow(t), Updated),
          templates := s.templates[t := s.templates[t].(source := source)]),
       Accepted(None))
  }

  function DeleteTemplate(s: State, t: nat): (State, Reply) {
    if t !in s.templates || TemplateRow(t) !in s.core.life then (s, Refused(NotFound))
    else if Busy(s.core.life, TemplateRow(t)) then (s, Refused(SyncInProgress))
    else if exists a <- s.assignments :: s.assignments[a].template == t then (s, Refused(HasAssignments))
    else if exists w <- s.workspaces :: s.workspaces[w].template == t then (s, Refused(Referenced))
    else
      (s.(core := DeleteRows(DiscardJob(s.core, TemplateRow(t), Updated), {TemplateRow(t)}),
          templates := s.templates - {t}),
       Accepted(None))
  }

  function RequestSync(s: State, t: nat): (State, Reply) {
    var refusal := TemplateRefusal(s, t);
    if refusal.Some? then (s, Refused(refusal.value))
    else
      var core := DiscardJob(s.core, TemplateRow(t), Updated);
      (s.(core := RequestJob(core, TemplateRow(t), TemplateSync, SyncTemplate)), Accepted(Some(core.nextId)))
  }

  // ---------- parameters ----------

  function ParameterRefusal(s: State, t: nat): Option<Refusal> {
    if t !in s.templates || TemplateRow(t) !in s.core.life then Some(NotFound)
    else if Busy(s.core.life, TemplateRow(t)) || ActiveAssignments(s, t) then Some(SyncInProgress)
    else None
  }

  datatype Payload = UserPayload(definition: Parameters.Definition) | SystemPayload(name: string, value: Option<string>)

  function PayloadName(p: Payload): string {
    match p case UserPayload(d) => d.name case SystemPayload(name, _) => name
  }

  predicate Defined(template: Template, name: string) {
    name in template.systemValues || name in template.userParameters
  }

  /** A created system parameter always carries a value. */
  function CreateParameter(s: State, t: nat, p: Payload): (State, Reply) {
    var refusal := ParameterRefusal(s, t);
    if refusal.Some? then (s, Refused(refusal.value))
    else if Defined(s.templates[t], PayloadName(p)) then (s, Refused(AlreadyExists))
    else
      var template := s.templates[t];
      var template' := match p
        case UserPayload(d) => template.(userParameters := template.userParameters[d.name := d])
        case SystemPayload(name, value) =>
          template.(systemValues := template.systemValues[name := if value.Some? then value.value else ""],
                    revision := template.revision + 1);
      (s.(templates := s.templates[t := template']), Accepted(None))
  }

  /** Only a rotated system value advances the revision; an omitted value is retained. */
  function UpdateParameter(s: State, t: nat, p: Payload): (State, Reply) {
    var refusal := ParameterRefusal(s, t);
    if refusal.Some? then (s, Refused(refusal.value))
    else
      var template := s.templates[t];
      if !Defined(template, PayloadName(p)) then (s, Refused(NotFound))
      else match p
        case UserPayload(d) =>
          if d.name !in template.userParameters then (s, Refused(FieldImmutable))
          else (s.(templates := s.templates[t := template.(userParameters := template.userParameters[d.name := d])]),
                Accepted(None))
        case SystemPayload(name, value) =>
          if name !in template.systemValues then (s, Refused(FieldImmutable))
          else if value.None? || template.systemValues[name] == value.value then (s, Accepted(None))
          else (s.(templates := s.templates[t :=
                     template.(systemValues := template.systemValues[name := value.value],
                               revision := template.revision + 1)]),
                Accepted(None))
  }

  function DeleteParameter(s: State, t: nat, name: string): (State, Reply) {
    var refusal := ParameterRefusal(s, t);
    if refusal.Some? then (s, Refused(refusal.value))
    else
      var template := s.templates[t];
      if !Defined(template, name) then (s, Refused(NotFound))
      else
        var template' :=
          if name in template.systemValues
          then template.(systemValues := template.systemValues - {name}, revision := template.revision + 1)
          else template.(userParameters := template.userParameters - {name});
        (s.(templates := s.templates[t := template']), Accepted(None))
  }

  // ---------- assignments ----------

  predicate IsPair(assignments: map<nat, Assignment>, a: nat, i: nat, t: nat) {
    a in assignments && assignments[a].instance == i && assignments[a].template == t
  }

  ghost function FindAssignment(s: State, i: nat, t: nat): Option<nat> {
    if a: nat :| IsPair(s.assignments, a, i, t) then Some(a) else None
  }

  function ParentRefusal(s: State, i: nat, t: nat): Option<Refusal> {
    if i !in s.instances || InstanceRow(i) !in s.core.life then Some(NotFound)
    else if t !in s.templates || TemplateRow(t) !in s.core.life then Some(NotFound)
    else None
  }

  function MutationRefusal(s: State, i: nat, t: nat): Option<Refusal>
    requires ParentRefusal(s, i, t).None?
  {
    if !(s.instances[i].started && s.core.life[InstanceRow(i)].status == Success) then Some(InstanceUnavailable)
    else if Busy(s.core.life, TemplateRow(t)) then Some(SyncInProgress)
    else None
  }

  predicate JobFits(job: Job, row: Life, a: nat, name: JobName, step: Step) {
    && job.name == name && job.task == step && job.resource == Some(AssignmentRow(a))
    && job.step == step && row.step == Some(step) && job.status == row.status
  }

  /** `_require_consistent_job`. */
  predicate ConsistentJob(core: Core, a: nat, name: JobName, step: Step)
    requires AssignmentRow(a) in core.life
  {
    var row := core.life[AssignmentRow(a)];
    && row.job.Some? && row.job.value in core.jobs
    && JobFits(core.jobs[row.job.value], row, a, name, step)
  }

  ghost function PutAssignment(s: State, i: nat, t: nat): (State, Reply) {
    if ParentRefusal(s, i, t).Some? then (s, Refused(ParentRefusal(s, i, t).value))
    else if MutationRefusal(s, i, t).Some? then (s, Refused(MutationRefusal(s, i, t).value))
    else
      var found := FindAssignment(s, i, t);
      if found.None? then
        var a := s.core.nextId;
        var core := DrawId(s.core);
        (s.(core := RequestJob(core, AssignmentRow(a), AssignmentCreate, Step.CreateTemplate),
            assignments := s.assignments[a := Assignment(t, i, None)]),
         Accepted(Some(core.nextId)))
      else if AssignmentRow(found.value) !in s.core.life then (s, Refused(NotFound))
      else
        var row := s.core.life[AssignmentRow(found.value)];
        if row.action == Created && row.status == Success then (s, Accepted(None))
        else if row.action == Creating && Unfinished(row.status) then
          if ConsistentJob(s.core, found.value, AssignmentCreate, Step.CreateTemplate) then (s, Accepted(row.job))
          else (s, Refused(JobConflict))
        else (s, Refused(ActionConflict))
  }

  predicate BusyPair(s: State, i: nat, t: nat) {
    exists w <- s.workspaces ::
      s.workspaces[w].instance == i && s.workspaces[w].template == t && Busy(s.core.life, WorkspaceRow(w))
  }

  ghost function DeleteAssignment(s: State, i: nat, t: nat): (State, Reply) {
    if ParentRefusal(s, i, t).Some? then (s, Refused(ParentRefusal(s, i, t).value))
    else
      var found := FindAssignment(s, i, t);
      if found.None? then (s, Accepted(None))
      else if MutationRefusal(s, i, t).Some? then (s, Refused(MutationRefusal(s, i, t).value))
      else if AssignmentRow(found.value) !in s.core.life then (s, Refused(NotFound))
      else
        var row := s.core.life[AssignmentRow(found.value)];
        if row.action == Deleting && Unfinished(row.status) then
          if ConsistentJob(s.core, found.value, AssignmentDelete, Step.DeleteTemplate) then (s, Accepted(row.job))
          else (s, Refused(JobConflict))
        else if !(row.action == Created && row.status == Success) then (s, Refused(ActionConflict))
        else if BusyPair(s, i, t) then (s, Refused(WorkspacesBusy))
        else
          (s.(core := RequestJob(s.core, AssignmentRow(found.value), AssignmentDelete, Step.DeleteTemplate)),
           Accepted(Some(s.core.nextId)))
  }
}
