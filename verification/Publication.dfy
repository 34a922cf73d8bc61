/** Publishing one template to one Coder instance, call by call. A worker may crash before any call and a
    later attempt starts over from the stored identifiers; only these calls change the remote side. */
module Publication {
  import opened Records

  /** A version is named after its goal, `git-<commit>-p<revision>`. */
  datatype Goal = Goal(commit: string, revision: nat)

  datatype Version = Version(name: Goal, template: Option<nat>, imported: bool, archived: bool)

  /** A remote template carries a name and one active version. */
  datatype Template = Template(name: string, active: nat)

  datatype Local =
    | Idle
    | Prepared(templateId: Option<nat>, versionId: Option<nat>)
    | Located(template: Option<nat>, found: bool, versionId: Option<nat>)   // found: also under its name
    | Stored(template: Option<nat>, found: bool, versionId: Option<nat>)
    | VersionMade(template: Option<nat>, version: nat)
    | VersionKnown(template: Option<nat>, version: nat)
    | Imported(template: Option<nat>, version: nat)
    | TemplateMade(created: nat)
    | Published
    | Rejected

  datatype State = State(
    name: string, goal: Goal,
    templates: map<nat, Template>, versions: map<nat, Version>, nextId: nat,
    storedTemplate: Option<nat>, storedVersion: Option<nat>, target: Option<Goal>,
    local: Local)

  datatype Event =
    | Attempt(goal: Goal)      // also after a crash: whatever the last attempt held is gone
    | Locate | StoreTemplate | FindOrCreateVersion | StoreVersion | Await | Publish | StoreCreated
    | Import(version: nat)     // the server finishes an import
    | Archive(version: nat)    // or archives a version

  predicate Named(templates: map<nat, Template>, name: string, t: nat) {
    t in templates && templates[t].name == name
  }

  ghost function ByName(s: State): Option<nat> {
    if t :| Named(s.templates, s.name, t) then Some(t) else None
  }

  /** `_managed_remote_template`: adopt a stored template, or one of the right name that is recognisably
      ours, and say whether the name finds it; None rejects it. */
  ghost function Managed(s: State, templateId: Option<nat>, versionId: Option<nat>): Option<(Option<nat>, bool)> {
    var persisted := if templateId.Some? && templateId.value in s.templates then templateId else None;
    var named := ByName(s);
    if persisted.Some? then (if named.Some? && named != persisted then None else Some((persisted, named.Some?)))
    else if named.None? then Some((None, false))
    else if templateId == named || versionId == Some(s.templates[named.value].active) then Some((named, true))
    else None
  }

  predicate IsVersionOf(s: State, v: nat, t: nat, goal: Goal) {
    v in s.versions && s.versions[v].name == goal && s.versions[v].template == Some(t)
  }

  /** The version of the goal's name in the template, or else the stored version, if it still exists. */
  ghost function FindVersion(s: State, template: Option<nat>, found: bool, versionId: Option<nat>): Option<nat> {
    if template.Some? && found && exists v :: IsVersionOf(s, v, template.value, s.goal) then
      var v :| IsVersionOf(s, v, template.value, s.goal); Some(v)
    else if versionId.Some? && versionId.value in s.versions then versionId
    else None
  }

  ghost function Apply(s: State, e: Event): State {
    match e
    case Attempt(goal) =>
      var kept := if s.target == Some(goal) then s.storedVersion else None;
      s.(goal := goal, target := Some(goal), storedVersion := kept, local := Prepared(s.storedTemplate, kept))
    case Locate =>
      if !s.local.Prepared? then s
      else (match Managed(s, s.local.templateId, s.local.versionId)
            case None => s.(local := Rejected)
            case Some((template, found)) => s.(local := Located(template, found, s.local.versionId)))
    case StoreTemplate =>
      if !s.local.Located? then s
      else s.(storedTemplate := if s.local.template.Some? then s.local.template else s.storedTemplate,
              local := Stored(s.local.template, s.local.found, s.local.versionId))
    case FindOrCreateVersion =>
      if !s.local.Stored? then s
      else (match FindVersion(s, s.local.template, s.local.found, s.local.versionId)
            case Some(v) => s.(local := VersionKnown(s.local.template, v))
            case None => s.(versions := s.versions[s.nextId := Version(s.goal, s.local.template, false, false)],
                            nextId := s.nextId + 1, local := VersionMade(s.local.template, s.nextId)))
    case StoreVersion =>
      if !s.local.VersionMade? then s
      else s.(storedVersion := Some(s.local.version), local := VersionKnown(s.local.template, s.local.version))
    case Await =>
      if s.local.VersionKnown? && s.local.version in s.versions && s.versions[s.local.version].imported
      then s.(versions := s.versions[s.local.version := s.versions[s.local.version].(archived := false)],
              local := Imported(s.local.template, s.local.version))
      else s
    case Publish =>
      if !(s.local.Imported? && s.local.version in s.versions) then s
      else if s.local.template.None? then
        s.(templates := s.templates[s.nextId := Template(s.name, s.local.version)],
           versions := s.versions[s.local.version := s.versions[s.local.version].(template := Some(s.nextId))],
           nextId := s.nextId + 1, local := TemplateMade(s.nextId))
      else if s.local.template.value in s.templates then
        s.(templates := s.templates[s.local.template.value := s.templates[s.local.template.value].(active := s.local.version)],
           local := Published)
      else s
    case StoreCreated =>
      if s.local.TemplateMade? then s.(storedTemplate := Some(s.local.created), local := Published) else s
    case Import(v) => if v in s.versions then s.(versions := s.versions[v := s.versions[v].(imported := true)]) else s
    case Archive(v) => if v in s.versions then s.(versions := s.versions[v := s.versions[v].(archived := true)]) else s
  }

  ghost function Run(s: State, events: seq<Event>): State
    decreases |events|
  {
    if events == [] then s else Run(Apply(s, events[0]), events[1..])
  }

  // ---------- what the calls do ----------

  /** A retry for the same commit and revision keeps the stored version, another one forgets it. */
  lemma AttemptStarts(s: State, goal: Goal)
    ensures var s' := Apply(s, Attempt(goal));
            && s'.goal == goal && s'.target == Some(goal) && s'.storedTemplate == s.storedTemplate
            && s'.storedVersion == (if s.target == Some(goal) then s.storedVersion else None)
            && s'.local == Prepared(s.storedTemplate, s'.storedVersion)
            && s'.templates == s.templates && s'.versions == s.versions
  {}

  /** What a lookup answers when the name is taken at most once: the stored template, as long as nobody else
      has its name; else the one of the name if it is stored or runs the stored version; none when the name
      is free; and a foreign template is rejected. */
  lemma LookupAnswers(s: State, t: Option<nat>, v: Option<nat>)
    requires Unique(s) && s.local == Prepared(t, v)
    ensures var s', mine := Apply(s, Locate), t.Some? && t.value in s.templates;
            && (mine && Named(s.templates, s.name, t.value) ==> s'.local == Located(t, true, v))
            && (mine && (forall u :: !Named(s.templates, s.name, u)) ==> s'.local == Located(t, false, v))
            && (mine && !Named(s.templates, s.name, t.value) && (exists u :: Named(s.templates, s.name, u)) ==> s'.local == Rejected)
            && (!mine && (forall u :: !Named(s.templates, s.name, u)) ==> s'.local == Located(None, false, v))
            && (!mine ==> forall u :: Named(s.templates, s.name, u) ==>
                  s'.local == if v == Some(s.templates[u].active) then Located(Some(u), true, v) else Rejected)
  {
    var named := ByName(s);
    assert named.None? <==> forall u: nat :: !Named(s.templates, s.name, u);
    assert forall u: nat :: Named(s.templates, s.name, u) ==> named == Some(u);
  }

  /** The version of this name in the template is reused, else a stored version that still exists, and only
      else a new one is made, under the name of the goal and in the template. */
  lemma VersionFoundOrMade(s: State, template: Option<nat>, found: bool, v: Option<nat>)
    requires s.local == Stored(template, found, v)
    ensures var s' := Apply(s, FindOrCreateVersion);
            var named := template.Some? && found && exists x :: IsVersionOf(s, x, template.value, s.goal);
            if named then
              s'.versions == s.versions && s'.local.VersionKnown? && s'.local.template == template
              && IsVersionOf(s, s'.local.version, template.value, s.goal)
            else if v.Some? && v.value in s.versions then s'.versions == s.versions && s'.local == VersionKnown(template, v.value)
            else
              && s'.local == VersionMade(template, s.nextId) && s'.nextId == s.nextId + 1
              && s'.versions == s.versions[s.nextId := Version(s.goal, template, false, false)]
  {}

  /** A version is published only after its import succeeded, and an archived one is brought back first. */
  lemma AwaitedIsUsable(s: State, template: Option<nat>, v: nat)
    requires s.local == VersionKnown(template, v) && v in s.versions
    ensures var s' := Apply(s, Await);
            if s.versions[v].imported then
              && s'.local == Imported(template, v) && s'.versions == s.versions[v := s'.versions[v]]
              && s'.versions[v].imported && !s'.versions[v].archived
              && s'.versions[v].name == s.versions[v].name && s'.versions[v].template == s.versions[v].template
            else s' == s
  {}

  /** A known template gets the version activated; without one a template of the name is made with it. */
  lemma PublishesVersion(s: State, template: Option<nat>, v: nat)
    requires s.local == Imported(template, v) && v in s.versions && (template.Some? ==> template.value in s.templates)
    ensures var s' := Apply(s, Publish);
            if template.Some? then
              && s'.local == Published && s'.versions == s.versions
              && s'.templates == s.templates[template.value := s.templates[template.value].(active := v)]
            else
              && s'.local == TemplateMade(s.nextId) && s'.templates == s.templates[s.nextId := Template(s.name, v)]
              && s'.versions == s.versions[v := s.versions[v].(template := Some(s.nextId))]
  {}

  /** Identifiers are stored as soon as they are known. */
  lemma IdentifiersStored(s: State)
    ensures s.local.Located? ==>
              var s' := Apply(s, StoreTemplate);
              && s'.storedTemplate == (if s.local.template.Some? then s.local.template else s.storedTemplate)
              && s'.local == Stored(s.local.template, s.local.found, s.local.versionId)
    ensures s.local.VersionMade? ==>
              var s' := Apply(s, StoreVersion);
              s'.storedVersion == Some(s.local.version) && s'.local == VersionKnown(s.local.template, s.local.version)
    ensures s.local.TemplateMade? ==>
              var s' := Apply(s, StoreCreated); s'.storedTemplate == Some(s.local.created) && s'.local == Published
  {}

  // ---------- the invariant ----------

  ghost predicate Unique(s: State) {
    forall t, u :: Named(s.templates, s.name, t) && Named(s.templates, s.name, u) ==> t == u
  }

  /** The one template of the name is recognisable as ours from what is stored. */
  ghost predicate Ours(s: State) {
    forall t :: Named(s.templates, s.name, t) ==> s.storedTemplate == Some(t) || s.storedVersion == Some(s.templates[t].active)
  }

  ghost predicate Fresh(s: State) {
    && (forall t <- s.templates :: t < s.nextId)
    && (forall v <- s.versions :: v < s.nextId && (s.versions[v].template.Some? ==> s.versions[v].template.value < s.nextId))
  }

  predicate StoredOk(s: State) {
    && (s.storedTemplate.Some? ==> Named(s.templates, s.name, s.storedTemplate.value))
    && (s.storedVersion.Some? ==>
          s.storedVersion.value in s.versions && s.target.Some? && s.versions[s.storedVersion.value].name == s.target.value)
  }

  /** What the running attempt has established. */
  ghost predicate LocalOk(s: State) {
    && (s.local.Idle? || s.local.Rejected? || s.target == Some(s.goal))
    && match s.local
       case Prepared(templateId, versionId) => templateId == s.storedTemplate && versionId == s.storedVersion
       case Located(template, _, versionId) => TemplateOk(s, template) && versionId == s.storedVersion
       case Stored(template, _, versionId) =>
         TemplateOk(s, template) && versionId == s.storedVersion && (template.Some? ==> s.storedTemplate == template)
       case VersionMade(template, v) => TemplateOk(s, template) && VersionOk(s, v) && (template.Some? ==> s.storedTemplate == template)
       case VersionKnown(template, v) => KnownOk(s, template, v)
       case Imported(template, v) => KnownOk(s, template, v) && s.versions[v].imported
       case TemplateMade(t) => Named(s.templates, s.name, t) && ActiveOk(s, s.templates[t].active)
       case Published => s.storedTemplate.Some? && Named(s.templates, s.name, s.storedTemplate.value) && ActiveOk(s, s.templates[s.storedTemplate.value].active)
       case _ => true
  }

  /** The attempt knows the template of the name, or there is none. */
  ghost predicate TemplateOk(s: State, template: Option<nat>) {
    if template.Some? then Named(s.templates, s.name, template.value) else forall t :: !Named(s.templates, s.name, t)
  }

  predicate VersionOk(s: State, v: nat) {
    v in s.versions && s.versions[v].name == s.goal
  }

  predicate ActiveOk(s: State, v: nat) {
    VersionOk(s, v) && s.versions[v].imported
  }

  /** A version that will make a new template is stored beforehand. */
  ghost predicate KnownOk(s: State, template: Option<nat>, v: nat) {
    && TemplateOk(s, template) && VersionOk(s, v)
    && (if template.Some? then s.storedTemplate == template else s.storedVersion == Some(v))
  }

  ghost predicate Inv(s: State) {
    Unique(s) && Ours(s) && Fresh(s) && StoredOk(s) && LocalOk(s)
  }

  /** An attempt with another goal is safe unless a template of the name exists whose identifier is not
      stored yet. */
  ghost predicate SafeEvent(s: State, e: Event) {
    e.Attempt? && s.target.Some? && s.target != Some(e.goal) ==> s.storedTemplate.Some? || forall t :: !Named(s.templates, s.name, t)
  }

  lemma AttemptKeeps(s: State, goal: Goal)
    requires Inv(s) && SafeEvent(s, Attempt(goal))
    ensures Inv(Apply(s, Attempt(goal)))
  {}

  lemma LocateKeeps(s: State)
    requires Inv(s)
    ensures Inv(Apply(s, Locate)) && (Apply(s, Locate).local != Rejected || s.local == Rejected)
  {
    var named := ByName(s);
    assert named.None? ==> forall t :: !Named(s.templates, s.name, t);
  }

  lemma StoreTemplateKeeps(s: State)
    requires Inv(s)
    ensures Inv(Apply(s, StoreTemplate))
  {}

  lemma VersionKeeps(s: State)
    requires Inv(s)
    ensures Inv(Apply(s, FindOrCreateVersion))
  {}

  lemma StoreVersionKeeps(s: State)
    requires Inv(s)
    ensures Inv(Apply(s, StoreVersion))
  {}

  lemma AwaitKeeps(s: State)
    requires Inv(s)
    ensures Inv(Apply(s, Await))
  {}

  lemma PublishKeeps(s: State)
    requires Inv(s)
    ensures Inv(Apply(s, Publish))
  {
    var s' := Apply(s, Publish);
    if s.local.Imported? && s.local.version in s.versions {
      assert forall t :: Named(s'.templates, s.name, t) <==>
               Named(s.templates, s.name, t) || (s.local.template.None? && t == s.nextId);
    }
  }

  lemma StoreCreatedKeeps(s: State)
    requires Inv(s)
    ensures Inv(Apply(s, StoreCreated))
  {}

  lemma ServerKeeps(s: State, e: Event)
    requires Inv(s) && (e.Import? || e.Archive?)
    ensures Inv(Apply(s, e)) && Apply(s, e).local == s.local
  {}

  lemma ApplyKeeps(s: State, e: Event)
    requires Inv(s) && SafeEvent(s, e) && s.local != Rejected
    ensures Inv(Apply(s, e)) && Apply(s, e).local != Rejected && Apply(s, e).name == s.name
  {
    hide Inv, SafeEvent;
    match e
    case Attempt(goal) => AttemptKeeps(s, goal);
    case Locate => LocateKeeps(s);
    case StoreTemplate => StoreTemplateKeeps(s);
    case FindOrCreateVersion => VersionKeeps(s);
    case StoreVersion => StoreVersionKeeps(s);
    case Await => AwaitKeeps(s);
    case Publish => PublishKeeps(s);
    case StoreCreated => StoreCreatedKeeps(s);
    case Import(_) => ServerKeeps(s, e);
    case Archive(_) => ServerKeeps(s, e);
  }

  // ---------- whole runs ----------

  /** Every attempt of the run has the goal of the first one, however often a crash restarts it. */
  predicate SameGoal(events: seq<Event>, goal: Goal) {
    forall e <- events :: e.Attempt? ==> e.goal == goal
  }

  ghost predicate SafeRun(s: State, events: seq<Event>)
    decreases |events|
  {
    events == [] || (SafeEvent(s, events[0]) && SafeRun(Apply(s, events[0]), events[1..]))
  }

  lemma {:induction false} RunKeeps(s: State, events: seq<Event>)
    requires Inv(s) && SafeRun(s, events) && s.local != Rejected
    ensures Inv(Run(s, events)) && Run(s, events).local != Rejected && Run(s, events).name == s.name
    decreases |events|
  {
    hide Inv, SafeEvent, Apply;
    if events != [] {
      ApplyKeeps(s, events[0]);
      RunKeeps(Apply(s, events[0]), events[1..]);
    }
  }

  lemma TargetStays(s: State, e: Event, goal: Goal)
    requires (s.target.None? || s.target == Some(goal)) && (e.Attempt? ==> e.goal == goal)
    ensures Apply(s, e).target.None? || Apply(s, e).target == Some(goal)
    ensures SafeEvent(s, e)
  {}

  lemma {:induction false} SameGoalIsSafe(s: State, events: seq<Event>, goal: Goal)
    requires (s.target.None? || s.target == Some(goal)) && SameGoal(events, goal)
    ensures SafeRun(s, events)
    decreases |events|
  {
    hide Apply, SafeEvent;
    if events != [] {
      TargetStays(s, events[0], goal);
      SameGoalIsSafe(Apply(s, events[0]), events[1..], goal);
    }
  }

  /** Nothing published yet: no template of the name, nothing stored, no attempt running. */
  ghost predicate Clean(s: State) {
    && s.storedTemplate.None? && s.storedVersion.None? && s.target.None? && s.local.Idle?
    && Fresh(s) && forall t :: !Named(s.templates, s.name, t)
  }

  /** Crash recovery: over every run of attempts with one commit and revision, restarted after a crash
      at any point, the template is never rejected as foreign, there is never a second template of the
      name, and a finished attempt leaves an imported version of its goal active in the stored template. */
  lemma CrashRecovery(s: State, events: seq<Event>, goal: Goal)
    requires Clean(s) && SameGoal(events, goal)
    ensures var end := Run(s, events);
            && end.local != Rejected
            && (forall t, u :: Named(end.templates, s.name, t) && Named(end.templates, s.name, u) ==> t == u)
            && (end.local.Published? ==>
                  && end.storedTemplate.Some? && Named(end.templates, s.name, end.storedTemplate.value)
                  && var active := end.templates[end.storedTemplate.value].active;
                     active in end.versions && end.versions[active].name == end.goal && end.versions[active].imported)
  {
    SameGoalIsSafe(s, events, goal);
    assert Inv(s);
    RunKeeps(s, events);
    hide Run, Apply, SafeRun;
  }

  ghost function ToKnown(s: State, goal: Goal): State {
    Apply(Apply(Apply(Apply(Apply(s, Attempt(goal)), Locate), StoreTemplate), FindOrCreateVersion), StoreVersion)
  }

  lemma RetryKnowsVersion(s: State, goal: Goal)
    requires Inv(s) && SafeEvent(s, Attempt(goal))
    ensures Inv(ToKnown(s, goal)) && ToKnown(s, goal).local.VersionKnown?
  {
    var s1 := Apply(s, Attempt(goal));
    assert s1.local.Prepared?;
    hide Inv, Apply, SafeEvent;
    AttemptKeeps(s, goal);
    LocateKeeps(s1);
    StoreTemplateKeeps(Apply(s1, Locate));
    VersionKeeps(Apply(Apply(s1, Locate), StoreTemplate));
    StoreVersionKeeps(Apply(Apply(Apply(s1, Locate), StoreTemplate), FindOrCreateVersion));
    ToVersion(s1);
  }

  lemma ImportMarks(s: State, v: nat)
    requires Inv(s) && s.local.VersionKnown? && s.local.version == v
    ensures v in Apply(s, Import(v)).versions && Apply(s, Import(v)).versions[v].imported
    ensures Inv(Apply(s, Import(v))) && Apply(s, Import(v)).local == s.local
  {
    ServerKeeps(s, Import(v));
  }

  /** And if the import succeeds, the retry does finish, wherever the last attempt stopped. */
  lemma RetrySucceeds(s: State, goal: Goal)
    requires Inv(s) && SafeEvent(s, Attempt(goal))
    ensures var known := Run(s, [Attempt(goal), Locate, StoreTemplate, FindOrCreateVersion, StoreVersion]);
            && known.local.VersionKnown?
            && Run(known, [Import(known.local.version), Await, Publish, StoreCreated]).local == Published
  {
    hide Inv, Apply, SafeEvent, Run;
    RunFive(s, Attempt(goal), Locate, StoreTemplate, FindOrCreateVersion, StoreVersion);
    RetryKnowsVersion(s, goal);
    var known := ToKnown(s, goal);
    var v := known.local.version;
    ImportMarks(known, v);
    FinishesImported(Apply(known, Import(v)), v);
    RunFour(known, Import(v), Await, Publish, StoreCreated);
  }

  lemma ToVersion(s: State)
    requires s.local.Prepared? && Apply(s, Locate).local != Rejected
    ensures Apply(Apply(Apply(Apply(s, Locate), StoreTemplate), FindOrCreateVersion), StoreVersion).local.VersionKnown?
  {
    hide Managed, FindVersion;
  }

  lemma FinishesImported(s: State, v: nat)
    requires Inv(s) && s.local.VersionKnown? && s.local.version == v && v in s.versions && s.versions[v].imported
    ensures Apply(Apply(Apply(s, Await), Publish), StoreCreated).local == Published
  {}

  lemma RunOne(s: State, e: Event, rest: seq<Event>)
    ensures Run(s, [e] + rest) == Run(Apply(s, e), rest)
  {
    assert ([e] + rest)[1..] == rest;
    hide Apply;
  }

  lemma RunFour(s: State, a: Event, b: Event, c: Event, d: Event)
    ensures Run(s, [a, b, c, d]) == Apply(Apply(Apply(Apply(s, a), b), c), d)
  {
    assert [a, b, c, d] == [a] + [b, c, d] && [b, c, d] == [b] + [c, d] && [c, d] == [c] + [d] && [d] == [d] + [];
    RunNone(Apply(Apply(Apply(Apply(s, a), b), c), d));
    hide Apply, Run;
    RunOne(s, a, [b, c, d]);
    RunOne(Apply(s, a), b, [c, d]);
    RunOne(Apply(Apply(s, a), b), c, [d]);
    RunOne(Apply(Apply(Apply(s, a), b), c), d, []);
  }

  lemma RunNone(s: State)
    ensures Run(s, []) == s
  {}

  lemma RunFive(s: State, a: Event, b: Event, c: Event, d: Event, e: Event)
    ensures Run(s, [a, b, c, d, e]) == Apply(Apply(Apply(Apply(Apply(s, a), b), c), d), e)
  {
    assert [a, b, c, d, e] == [a] + [b, c, d, e];
    hide Apply, Run;
    RunOne(s, a, [b, c, d, e]);
    RunFour(Apply(s, a), b, c, d, e);
  }

  // ---------- the case that is not recovered ----------

  /** A retry with another commit or revision is rejected as foreign exactly when a template of the name
      exists whose identifier had not been stored: the goal's change clears the stored version that would
      have recognised it. */
  lemma RejectedExactly(s: State, goal: Goal)
    requires Inv(s) && s.target.Some? && s.target != Some(goal)
    ensures Apply(Apply(s, Attempt(goal)), Locate).local == Rejected
            <==> s.storedTemplate.None? && exists t :: Named(s.templates, s.name, t)
  {
    var s1 := Apply(s, Attempt(goal));
    if s.storedTemplate.None? && exists t :: Named(s.templates, s.name, t) {
      assert ByName(s1).Some?;
    } else {
      AttemptKeeps(s, goal);
      LocateKeeps(s1);
    }
  }

  const OLD := Goal("a", 0)
  const NEW := Goal("b", 0)
  const EMPTY := State("tpl", OLD, map[], map[], 0, None, None, None, Idle)

  function Made(imported: bool): map<nat, Version> {
    map[0 := Version(OLD, None, imported, false)]
  }

  const KNOWN := EMPTY.(versions := Made(false), nextId := 1, storedVersion := Some(0), target := Some(OLD), local := VersionKnown(None, 0))
  const CREATED := KNOWN.(versions := map[0 := Version(OLD, Some(1), true, false)], templates := map[1 := Template("tpl", 0)],
                          nextId := 2, local := TemplateMade(1))

  lemma FirstAttempt()
    ensures ToKnown(EMPTY, OLD) == KNOWN
  {
    var s1 := Apply(EMPTY, Attempt(OLD));
    assert ByName(s1).None?;
    assert Apply(s1, Locate) == s1.(local := Located(None, false, None));
  }

  lemma UpToCreation()
    ensures Apply(Apply(Apply(KNOWN, Import(0)), Await), Publish) == CREATED
  {
    assert Apply(KNOWN, Import(0)) == KNOWN.(versions := Made(true));
    assert Apply(Apply(KNOWN, Import(0)), Await) == KNOWN.(versions := Made(true), local := Imported(None, 0));
  }

  /** Such a state is one crash away from a clean start: the run stops after creating the template and
      before storing its identifier, and the branch moves on. */
  lemma CrashBeforeStoring()
    ensures Clean(EMPTY)
    ensures var known := Run(EMPTY, [Attempt(OLD), Locate, StoreTemplate, FindOrCreateVersion, StoreVersion]);
            Run(known, [Import(0), Await, Publish, Attempt(NEW)]) == Apply(CREATED, Attempt(NEW))
    ensures Apply(Apply(CREATED, Attempt(NEW)), Locate).local == Rejected
  {
    RejectsCreated();
    hide Apply, Run;
    RunFive(EMPTY, Attempt(OLD), Locate, StoreTemplate, FindOrCreateVersion, StoreVersion);
    FirstAttempt();
    RunFour(KNOWN, Import(0), Await, Publish, Attempt(NEW));
    UpToCreation();
  }

  lemma RejectsCreated()
    ensures Apply(Apply(CREATED, Attempt(NEW)), Locate).local == Rejected
  {
    assert Named(CREATED.templates, "tpl", 1);
    assert ByName(Apply(CREATED, Attempt(NEW))).Some?;
  }
}
