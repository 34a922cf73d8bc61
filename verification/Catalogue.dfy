/** Every user parameter of a template is kept under its own name, so a workspace request always resolves
    against each definition once, in the order of the names. */
module Catalogue {
  import opened Records
  import opened Execution
  import opened Store
  import opened Events
  import opened Frames
  import opened Tables
  import opened System
  import Interlock
  import Parameters
  import TR = TemplateRequests
  import WR = WorkspaceRequests
  import WorkspaceLaws

  predicate NamesFit(templates: map<nat, Template>) {
    forall t <- templates :: forall name <- templates[t].userParameters :: templates[t].userParameters[name].name == name
  }

  predicate FitsOne(template: Template) {
    forall name <- template.userParameters :: template.userParameters[name].name == name
  }

  lemma OneFits(templates: map<nat, Template>, t: nat, template: Template)
    requires NamesFit(templates) && FitsOne(template)
    ensures NamesFit(templates[t := template])
  {}

  lemma ParameterFits(s: State, t: nat, p: TR.Payload, name: string)
    requires NamesFit(s.templates)
    ensures NamesFit(TR.CreateParameter(s, t, p).0.templates)
    ensures NamesFit(TR.UpdateParameter(s, t, p).0.templates)
    ensures NamesFit(TR.DeleteParameter(s, t, name).0.templates)
  {
    if t in s.templates && TemplateRow(t) in s.core.life {
      var template := s.templates[t];
      assert FitsOne(template);
      PayloadFits(template, p, name);
      hide NamesFit, FitsOne, TR.ActiveAssignments;
      CreationFits(s, t, p);
      UpdateFits(s, t, p);
      DeletionFits(s, t, name);
    }
  }

  lemma PayloadFits(template: Template, p: TR.Payload, name: string)
    requires FitsOne(template)
    ensures p.UserPayload? ==> FitsOne(template.(userParameters := template.userParameters[p.definition.name := p.definition]))
    ensures FitsOne(template.(userParameters := template.userParameters - {name}))
  {}

  // Every edit leaves the user parameters alone, replaces one, or drops one.

  lemma CreationFits(s: State, t: nat, p: TR.Payload)
    requires t in s.templates && TemplateRow(t) in s.core.life && NamesFit(s.templates) && FitsOne(s.templates[t])
    requires p.UserPayload? ==> FitsOne(s.templates[t].(userParameters := s.templates[t].userParameters[p.definition.name := p.definition]))
    ensures NamesFit(TR.CreateParameter(s, t, p).0.templates)
  {
    SameNames(s.templates[t]);
    var s' := TR.CreateParameter(s, t, p).0;
    if s' != s {
      hide NamesFit, FitsOne, TR.ActiveAssignments;
      OneFits(s.templates, t, s'.templates[t]);
    }
  }

  lemma UpdateFits(s: State, t: nat, p: TR.Payload)
    requires t in s.templates && TemplateRow(t) in s.core.life && NamesFit(s.templates) && FitsOne(s.templates[t])
    requires p.UserPayload? ==> FitsOne(s.templates[t].(userParameters := s.templates[t].userParameters[p.definition.name := p.definition]))
    ensures NamesFit(TR.UpdateParameter(s, t, p).0.templates)
  {
    SameNames(s.templates[t]);
    var s' := TR.UpdateParameter(s, t, p).0;
    if s' != s {
      hide NamesFit, FitsOne, TR.ActiveAssignments;
      OneFits(s.templates, t, s'.templates[t]);
    }
  }

  lemma DeletionFits(s: State, t: nat, name: string)
    requires t in s.templates && TemplateRow(t) in s.core.life && NamesFit(s.templates) && FitsOne(s.templates[t])
    requires FitsOne(s.templates[t].(userParameters := s.templates[t].userParameters - {name}))
    ensures NamesFit(TR.DeleteParameter(s, t, name).0.templates)
  {
    SameNames(s.templates[t]);
    var s' := TR.DeleteParameter(s, t, name).0;
    if s' != s {
      hide NamesFit, FitsOne, TR.ActiveAssignments;
      OneFits(s.templates, t, s'.templates[t]);
    }
  }

  /** Only the user parameters matter. */
  lemma SameNames(template: Template)
    requires FitsOne(template)
    ensures forall values: map<string, string>, revision: nat :: FitsOne(template.(systemValues := values, revision := revision))
  {}

  lemma OtherRequestFits(s: State, r: TemplateRequest)
    requires NamesFit(s.templates) && !r.AddParameter? && !r.SetParameter? && !r.DropParameter?
    ensures NamesFit(AnswerTemplate(s, r).0.templates)
  {
    hide TR.ActiveAssignments, TR.ActiveWorkspaces, TR.MutationRefusal, TR.ParentRefusal, TR.FindAssignment, TR.ConsistentJob, TR.BusyPair;
    hide DiscardJob, RequestJob, DeleteRows, InsertIdle, DrawId;
  }

  lemma RequestFits(s: State, r: TemplateRequest)
    requires NamesFit(s.templates)
    ensures NamesFit(AnswerTemplate(s, r).0.templates)
  {
    hide NamesFit, TR.CreateParameter, TR.UpdateParameter, TR.DeleteParameter;
    match r
    case AddParameter(t, p) => ParameterFits(s, t, p, "");
    case SetParameter(t, p) => ParameterFits(s, t, p, "");
    case DropParameter(t, name) => ParameterFits(s, t, TR.SystemPayload(name, None), name);
    case _ => OtherRequestFits(s, r);
  }

  lemma ApplyFits(s: State, e: Event)
    requires Good(s) && NamesFit(s.templates)
    ensures NamesFit(Apply(s, e).templates)
  {
    hide Good, Sound, Keyed, Linked, LocalsFit, NamesFit, AnswerTemplate, DoWork;
    GoodSound(s);
    if Apply(s, e).templates != s.templates {
      Interlock.OnlyRequestsWriteTemplates(s, e);
      RequestFits(s, e.request.template);
    }
  }

  lemma {:induction false} RunFits(s: State, events: seq<Event>)
    requires Good(s) && NamesFit(s.templates)
    ensures NamesFit(Run(s, events).templates)
    decreases |events|
  {
    hide Good, NamesFit, Apply;
    if events != [] {
      ApplyKeepsGood(s, events[0]);
      ApplyFits(s, events[0]);
      RunFits(Apply(s, events[0]), events[1..]);
    }
  }

  /** In every reachable state the definitions a workspace is resolved against are exactly the user parameters
      of its template, each once. */
  lemma ReachableDefinitions(events: seq<Event>, t: nat)
    requires t in Run(START, events).templates
    ensures var template := Run(START, events).templates[t];
            && Parameters.DistinctNames(WR.Definitions(template))
            && (forall d: Parameters.Definition :: d in WR.Definitions(template) <==>
                  d.name in template.userParameters && template.userParameters[d.name] == d)
  {
    hide Good, Run, WR.Definitions, Parameters.DistinctNames;
    StartIsGood();
    RunFits(START, events);
    WorkspaceLaws.DefinitionsExactly(Run(START, events).templates[t]);
  }
}
