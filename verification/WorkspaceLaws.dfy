/** When the requests on workspaces and databases are accepted, and what they change. */
module WorkspaceLaws {
  import opened Records
  import opened Execution
  import opened Store
  import opened ProtocolLaws
  import opened InstanceLaws
  import opened TemplateLaws
  import Parameters
  import Placement
  import Text
  import WR = WorkspaceRequests

  /** The user parameters of a template, each once, in the order of their names. */
  lemma DefinitionsExactly(template: Template)
    requires forall name <- template.userParameters :: template.userParameters[name].name == name
    ensures var defs := WR.Definitions(template);
            && Parameters.DistinctNames(defs)
            && (forall i, j :: 0 <= i < j < |defs| ==> Text.Less(defs[i].name, defs[j].name))
            && (forall d: Parameters.Definition :: d in defs <==> d.name in template.userParameters && template.userParameters[d.name] == d)
  {
    var names := Text.Sorted(template.userParameters.Keys);
    var defs := WR.Definitions(template);
    assert Text.Lists(names, template.userParameters.Keys);
    forall k | 0 <= k < |names| ensures defs[k].name == names[k] && names[k] in template.userParameters {
      assert names[k] in Text.Elements(names);
    }
    forall i, j | 0 <= i < j < |defs| ensures Text.Less(defs[i].name, defs[j].name) && defs[i].name != defs[j].name {
      assert Text.Less(names[i], names[j]);
      Text.LessIrreflexive(names[i]);
    }
    forall d: Parameters.Definition | d.name in template.userParameters && template.userParameters[d.name] == d ensures d in defs {
      assert d.name in Text.Elements(names);
      var k :| 0 <= k < |names| && names[k] == d.name;
      assert defs[k] == d;
    }
  }

  // ---------- workspaces ----------

  /** The template is settled and its assignment to the instance created, settled and known to Coder. */
  predicate Offered(s: State, t: nat, i: nat) {
    && TemplateRow(t) in s.core.life && s.core.life[TemplateRow(t)].status == Success
    && exists a <- s.assignments ::
         && s.assignments[a].template == t && s.assignments[a].instance == i && AssignmentRow(a) in s.core.life
         && s.core.life[AssignmentRow(a)].action == Created && s.core.life[AssignmentRow(a)].status == Success
         && s.assignments[a].deployment.Some? && s.assignments[a].deployment.value.templateId.Some?
  }

  lemma OfferedExactly(s: State, t: nat, i: nat)
    ensures Offered(s, t, i) <==> WR.Deployed(s, t, i)
  {
    if Offered(s, t, i) {
      var a :| && a in s.assignments && s.assignments[a].template == t && s.assignments[a].instance == i && AssignmentRow(a) in s.core.life
               && s.core.life[AssignmentRow(a)].action == Created && s.core.life[AssignmentRow(a)].status == Success
               && s.assignments[a].deployment.Some? && s.assignments[a].deployment.value.templateId.Some?;
      assert WR.IsDeployed(s, a, t, i);
    }
  }

  /** What a refused resolution is reported as. */
  predicate FaultReported(r: Parameters.Result, why: Refusal) {
    r.Rejected? && why == if r.fault.Immutable? then ImmutableParameter else BadConfiguration
  }

  /** A workspace starts at revision zero, with the resolved parameters and nothing applied or built. */
  lemma WorkspaceAdded(s: State, i: nat, t: nat, m: nat, name: string, supplied: map<string, string>, valid: bool)
    requires Known(s, i) && Listed(s, t)
    ensures var (s', reply) := WR.CreateWorkspace(s, i, t, m, name, supplied, valid); var w := s.core.nextId;
            var r := Parameters.Resolve(WR.Definitions(s.templates[t]), supplied, None);
            && (reply.Accepted? <==>
                  && s.core.life[InstanceRow(i)].status == Success && Offered(s, t, i)
                  && m in s.members && s.members[m].instance == i && s.members[m].status == Success && valid && r.Resolved?)
            && (reply.Refused? ==>
                  && s' == s
                  && (if s.core.life[InstanceRow(i)].status != Success then reply.why == InstanceBusy
                      else if !Offered(s, t, i) then reply.why == NotDeployed
                      else if m !in s.members then reply.why == NotFound
                      else if s.members[m].instance != i || s.members[m].status != Success then reply.why == OwnerUnavailable
                      else if !valid then reply.why == BadConfiguration else FaultReported(r, reply.why)))
            && (reply.Accepted? ==>
                  && reply.job == Some(w + 1) && s' == s.(core := s'.core, workspaces := s'.workspaces)
                  && s'.workspaces == s.workspaces[w := Workspace(name, t, i, m, r.values, 0, None, None, None)]
                  && Staged(s.core, s'.core, w + 1, WorkspaceRow(w), WorkspaceCreate, CreateWorkspace, Creating))
  {
    OfferedExactly(s, t, i);
    hide Offered, WR.Deployed, WR.Definitions, Parameters.Resolve;
  }

  /** A workspace can change while neither it nor its instance is at work and its template is on offer. */
  predicate Changeable(s: State, w: nat) {
    && w in s.workspaces && WorkspaceRow(w) in s.core.life
    && (s.core.life[WorkspaceRow(w)].status == Success || s.core.life[WorkspaceRow(w)].status == Error)
    && Known(s, s.workspaces[w].instance) && s.core.life[InstanceRow(s.workspaces[w].instance)].status == Success
    && Listed(s, s.workspaces[w].template) && Offered(s, s.workspaces[w].template, s.workspaces[w].instance)
  }

  predicate ChangeRefusal(s: State, w: nat, why: Refusal) {
    if w !in s.workspaces || WorkspaceRow(w) !in s.core.life then why == NotFound
    else if s.core.life[WorkspaceRow(w)].status == Pending || s.core.life[WorkspaceRow(w)].status == Running then why == Refusal.WorkspaceBusy
    else if !Known(s, s.workspaces[w].instance) then why == NotFound
    else if s.core.life[InstanceRow(s.workspaces[w].instance)].status != Success then why == InstanceBusy
    else if !Listed(s, s.workspaces[w].template) then why == NotFound
    else why == NotDeployed
  }

  lemma ChangeableExactly(s: State, w: nat)
    ensures Changeable(s, w) <==> WR.WorkspaceRefusal(s, w).None?
    ensures !Changeable(s, w) ==> ChangeRefusal(s, w, WR.WorkspaceRefusal(s, w).value)
  {
    if w in s.workspaces { OfferedExactly(s, s.workspaces[w].template, s.workspaces[w].instance); }
    hide Offered, WR.Deployed;
  }

  /** An accepted update stores the new name and parameters, advances the revision exactly when the
      parameters change, and stages a job unless a settled workspace already is as requested. */
  lemma WorkspaceReplaced(s: State, w: nat, name: string, supplied: map<string, string>, changed: bool, valid: bool)
    requires Changeable(s, w)
    ensures var (s', reply) := WR.UpdateWorkspace(s, w, name, supplied, changed, valid); var row := s.workspaces[w];
            var r := Parameters.Resolve(WR.Definitions(s.templates[row.template]), supplied, Some(row.parameters));
            && (reply.Accepted? <==> valid && r.Resolved?)
            && (reply.Refused? ==> s' == s && if valid then FaultReported(r, reply.why) else reply.why == BadConfiguration)
            && (reply.Accepted? ==>
                  var same := name == row.name && !changed && r.values == row.parameters;
                  if same && s.core.life[WorkspaceRow(w)].status == Success then s' == s && reply.job == None
                  else
                    && reply.job == Some(s.core.nextId) && s' == s.(core := s'.core, workspaces := s'.workspaces)
                    && w in s'.workspaces && s'.workspaces == s.workspaces[w := s'.workspaces[w]]
                    && s'.workspaces[w].name == name && s'.workspaces[w].parameters == r.values
                    && s'.workspaces[w].revision == (if r.values == row.parameters then row.revision else row.revision + 1)
                    && s'.workspaces[w].template == row.template && s'.workspaces[w].instance == row.instance
                    && s'.workspaces[w].member == row.member && s'.workspaces[w].applied == row.applied
                    && s'.workspaces[w].remoteId == row.remoteId && s'.workspaces[w].buildId == row.buildId
                    && Staged(s.core, s'.core, s.core.nextId, WorkspaceRow(w), WorkspaceUpdate, UpdateWorkspace, Updating))
  {
    ChangeableExactly(s, w);
    hide Offered, WR.WorkspaceRefusal, WR.Definitions, Parameters.Resolve;
  }

  lemma WorkspaceDropped(s: State, w: nat)
    ensures var (s', reply) := WR.DeleteWorkspace(s, w);
            && (reply.Accepted? <==> Changeable(s, w))
            && (reply.Refused? ==> s' == s && ChangeRefusal(s, w, reply.why))
            && (reply.Accepted? ==>
                  && reply.job == Some(s.core.nextId) && s' == s.(core := s'.core)
                  && Staged(s.core, s'.core, s.core.nextId, WorkspaceRow(w), WorkspaceDelete, DeleteWorkspace, Deleting))
  {
    ChangeableExactly(s, w);
    hide Changeable, ChangeRefusal, WR.WorkspaceRefusal;
  }

  lemma UnchangeableWorkspace(s: State, w: nat, name: string, supplied: map<string, string>, changed: bool, valid: bool)
    requires !Changeable(s, w)
    ensures var (s', reply) := WR.UpdateWorkspace(s, w, name, supplied, changed, valid);
            s' == s && reply.Refused? && ChangeRefusal(s, w, reply.why)
  {
    ChangeableExactly(s, w);
    hide Changeable, ChangeRefusal, WR.WorkspaceRefusal, WR.Definitions, Parameters.Resolve;
  }

  // ---------- databases ----------

  predicate RankFree(databases: map<nat, Database>, d: nat, rank: nat) {
    forall e <- databases :: e != d ==> databases[e].rank != rank
  }

  lemma DatabaseAdded(s: State, capacity: nat, rank: nat)
    ensures var (s', reply) := WR.CreateDatabase(s, capacity, rank); var d := s.core.nextId;
            if capacity == 0 then s' == s && reply == Refused(BadConfiguration)
            else if !RankFree(s.databases, d, rank) then s' == s && reply == Refused(AlreadyExists)
            else
              && reply == Accepted(None) && s'.core == s.core.(nextId := d + 1)
              && s' == s.(core := s'.core, databases := s.databases[d := Database(capacity, rank)])
  {}

  /** A database never shrinks below what it holds. */
  lemma DatabaseResized(s: State, d: nat, capacity: nat, rank: nat)
    ensures var (s', reply) := WR.UpdateDatabase(s, d, capacity, rank);
            && (reply.Accepted? <==>
                  && capacity > 0 && d in s.databases && Placement.Count(s.allocations, d) <= capacity && RankFree(s.databases, d, rank))
            && (reply.Refused? ==>
                  s' == s && reply.why == (if capacity == 0 then BadConfiguration else if d !in s.databases then NotFound
                                           else if Placement.Count(s.allocations, d) > capacity then CapacityConflict else AlreadyExists))
            && (reply.Accepted? ==> reply.job == None && s' == s.(databases := s.databases[d := Database(capacity, rank)]))
  {
    hide Placement.Count;
  }

  lemma DatabaseDropped(s: State, d: nat)
    ensures var (s', reply) := WR.DeleteDatabase(s, d);
            && (reply.Accepted? <==> d in s.databases && forall i <- s.allocations :: s.allocations[i] != d)
            && (reply.Refused? ==> s' == s && reply.why == if d in s.databases then InUse else NotFound)
            && (reply.Accepted? ==> reply.job == None && s' == s.(databases := s.databases - {d}))
  {}

  lemma DatabaseSyncStaged(s: State)
    ensures var (s', reply) := WR.RequestDatabaseSync(s); var j := s.core.nextId;
            && reply == Accepted(Some(j)) && s' == s.(core := s'.core) && s'.core.life == s.core.life && s'.core.claims == s.core.claims
            && s'.core.jobs == s.core.jobs[j := Job(DatabaseSync, SyncDatabase, None, SyncDatabase, Pending, 0, None)]
            && s'.core.nextId == j + 1
  {}
}
