/** What the protocol promises about single jobs, over runs of the whole system. */
module Liveness {
  import opened Records
  import opened Execution
  import opened Store
  import opened Events
  import opened System
  import Protocol
  import Runs
  import Theorems

  /** The invariant of the protocol in every reachable state, and how two of them follow each other. */
  lemma RunsFollow(before: seq<Event>, after: seq<Event>)
    ensures var s := Run(START, before);
            Protocol.Inv(s.core) && Protocol.Inv(Run(s, after).core) && Protocol.Evolves(s.core, Run(s, after).core)
  {
    hide Good, Run, Protocol.Inv, Protocol.Evolves;
    var s := Run(START, before);
    ReachableIsGood(before);
    RunKeepsGood(s, after);
    RunEvolves(s, after);
    Theorems.GoodInv(s);
    Theorems.GoodInv(Run(s, after));
  }

  /** A finished or superseded job is never claimed, redelivered or owned again. */
  lemma NothingComesBack(before: seq<Event>, after: seq<Event>, id: nat, task: Step, staleBefore: int)
    requires var core := Run(START, before).core;
             id in core.jobs && (core.jobs[id].status == Success || Runs.Superseded(core, id))
    ensures var core := Run(Run(START, before), after).core;
            && !Claimable(core, id, task) && RetryTask(core, id, staleBefore).None?
            && (forall c <- core.claims :: c.job == id ==> !Owned(core, c))
  {
    hide Run, Protocol.Inv, Protocol.Evolves, Runs.Superseded, Claimable, RetryTask, Owned;
    RunsFollow(before, after);
    Runs.GoneStaysGone(Run(START, before).core, Run(Run(START, before), after).core, id, task, staleBefore);
  }

  // ---------- no job gets stuck ----------

  /** The reclaims of one scan. */
  function Reclaims(ids: seq<nat>, staleBefore: int): seq<Event> {
    if ids == [] then [] else [Event.Reclaim(ids[0], staleBefore)] + Reclaims(ids[1..], staleBefore)
  }

  lemma {:induction false} ScanRuns(s: State, ids: seq<nat>, staleBefore: int)
    ensures Run(s, Reclaims(ids, staleBefore)) == s.(core := Runs.Scan(s.core, ids, staleBefore))
    decreases |ids|
  {
    if ids != [] {
      var events := Reclaims(ids, staleBefore);
      assert events[0] == Event.Reclaim(ids[0], staleBefore) && events[1..] == Reclaims(ids[1..], staleBefore);
      ScanRuns(Apply(s, events[0]), ids[1..], staleBefore);
      hide PrepareRetry;
    }
  }

  /** In every reachable state, one scan with a late enough threshold that lists what the scanner selects
      lets the next delivery of a live job start an attempt that owns it. */
  lemma NothingGetsStuck(events: seq<Event>, id: nat, ids: seq<nat>, staleBefore: int, now: int)
    requires var core := Run(START, events).core;
             && Runs.Live(core, id) && Runs.Expired(core.jobs[id], staleBefore)
             && (forall i :: Runs.Selected(core, i, staleBefore) ==> i in ids)
    ensures var s := Run(START, events); var scanned := Run(s, Reclaims(ids, staleBefore));
            && id in s.core.jobs && id in scanned.core.jobs
            && var c, s' := ClaimToken(scanned.core, id), Apply(scanned, Event.Deliver(id, s.core.jobs[id].task, now));
               c in s'.workers && s'.workers[c] == Started && Owned(s'.core, c)
  {
    hide Run, Protocol.Inv, Protocol.Evolves, Claimable, Owned, Runs.Scan, ClaimExecution, Runs.Selected;
    RunsFollow(events, []);
    var s := Run(START, events);
    var core, task := s.core, s.core.jobs[id].task;
    Runs.LiveIsSelected(core, id, staleBefore);
    Runs.ScanRevives(core, ids, id, staleBefore);
    ScanRuns(s, ids, staleBefore);
    Revived(Run(s, Reclaims(ids, staleBefore)), id, task, now);
  }

  /** A delivery of a claimable job starts an attempt that owns it. */
  lemma Revived(s: State, id: nat, task: Step, now: int)
    requires Claimable(s.core, id, task)
    ensures id in s.core.jobs
    ensures var c, s' := ClaimToken(s.core, id), Apply(s, Event.Deliver(id, task, now));
            && s' == s.(core := ClaimExecution(s.core, id, task, now), workers := s.workers[c := Started])
            && Owned(s'.core, c)
  {
    Runs.DeliveryOwns(s.core, id, task, now);
    hide Owned, ClaimExecution;
  }

  // ---------- a job changes its step at most three times ----------

  predicate Moves(s: State, s': State, id: nat) {
    id in s.core.jobs && id in s'.core.jobs && s'.core.jobs[id].step != s.core.jobs[id].step
  }

  ghost function StepChanges(s: State, events: seq<Event>, id: nat): nat
    decreases |events|
  {
    if events == [] then 0
    else (if Moves(s, Apply(s, events[0]), id) then 1 else 0) + StepChanges(Apply(s, events[0]), events[1..], id)
  }

  /** The changes that a job can still make; one not yet created can make three. */
  function ChangesLeft(core: Core, id: nat): nat {
    if id in core.jobs then StepsLeft(core.jobs[id].step) else if id < core.nextId then 0 else 3
  }

  lemma EvolvingSpends(s: State, s': State, id: nat)
    requires Protocol.Inv(s.core) && Protocol.Inv(s'.core) && Protocol.Evolves(s.core, s'.core)
    ensures (if Moves(s, s', id) then 1 else 0) + ChangesLeft(s'.core, id) <= ChangesLeft(s.core, id)
  {
    if id in s.core.jobs { assert Protocol.JobOk(s.core, id); }
    if id in s'.core.jobs { assert Protocol.JobOk(s'.core, id); }
    if id in s.core.jobs && id in s'.core.jobs { assert Protocol.JobEvolves(s.core.jobs[id], s'.core.jobs[id]); }
  }

  lemma {:induction false} ChangesSpend(s: State, events: seq<Event>, id: nat)
    requires Good(s)
    ensures StepChanges(s, events, id) <= ChangesLeft(s.core, id)
    decreases |events|
  {
    if events != [] {
      var s' := Apply(s, events[0]);
      hide Good, Apply, Protocol.Inv, Protocol.Evolves, ChangesLeft, Moves;
      ApplyKeepsGood(s, events[0]);
      ApplyEvolves(s, events[0]);
      Theorems.GoodInv(s);
      Theorems.GoodInv(s');
      EvolvingSpends(s, s', id);
      ChangesSpend(s', events[1..], id);
    }
  }

  /** Over every run of the system no job changes its step more than three times. */
  lemma AtMostThreeSteps(events: seq<Event>, id: nat)
    ensures StepChanges(START, events, id) <= 3
  {
    hide Good, StepChanges;
    StartIsGood();
    ChangesSpend(START, events, id);
  }

  /** No job named instance.update ever stands at the bootstrap step. */
  lemma BootstrapNeverUpdates(events: seq<Event>, id: nat)
    requires id in Run(START, events).core.jobs && Run(START, events).core.jobs[id].step == BootstrapAdmin
    ensures Run(START, events).core.jobs[id].name == InstanceCreate
    ensures NextStep(Run(START, events).core.jobs[id].name, BootstrapAdmin).None?
  {
    hide Run, Protocol.Inv, Protocol.Evolves;
    RunsFollow(events, []);
    Runs.BootstrapIsCreation(Run(START, events).core, id);
  }
}
