/** The decisions of the Argo CD client over whatever answers the server gives. Each method returns
    the conversation it held, so that its contract can say which observation precedes each change. */
module ApplicationClient {
  import opened Records

  /** `owner` is the instance named by the label; `active` an operation in a phase that has not
      ended; `leaving` a deletion that is accepted but still visible. */
  datatype Application = Application(owner: Option<nat>, active: bool, leaving: bool)

  datatype Request = Get | Post | Put | Delete | Sync

  datatype Answer = Found(app: Application) | Absent | Accepted | Conflict | Failed

  datatype Exchange = Exchange(request: Request, answer: Answer)

  datatype Outcome = Completed | Deferred | Foreign | Broken

  type Talk = seq<Exchange>

  predicate Owned(e: Exchange, owner: nat) {
    e.request == Get && e.answer.Found? && e.answer.app.owner == Some(owner)
  }

  predicate SeesForeign(e: Exchange, owner: nat) {
    e.request == Get && e.answer.Found? && e.answer.app.owner != Some(owner)
  }

  predicate SeesBusy(e: Exchange, owner: nat) {
    Owned(e, owner) && e.answer.app.active
  }

  predicate SeesIdle(e: Exchange, owner: nat) {
    Owned(e, owner) && !e.answer.app.active
  }

  predicate SeesNone(e: Exchange) {
    e == Exchange(Get, Absent)
  }

  predicate Wrote(e: Exchange) {
    (e.request == Post || e.request == Put) && e.answer == Accepted
  }

  /** Every change follows the observation that permits it: creation an absence, replacement and
      deletion an idle Application of this very instance, synchronisation an accepted write and a
      look that shows nothing foreign and nothing in progress. */
  predicate Permitted(talk: Talk, owner: nat, k: nat)
    requires k < |talk|
  {
    match talk[k].request
    case Get => true
    case Post => k >= 1 && SeesNone(talk[k - 1])
    case Put => k >= 1 && SeesIdle(talk[k - 1], owner)
    case Delete => k >= 1 && SeesIdle(talk[k - 1], owner) && !talk[k - 1].answer.app.leaving
    case Sync => k >= 2 && Wrote(talk[k - 2]) && (SeesNone(talk[k - 1]) || SeesIdle(talk[k - 1], owner))
  }

  predicate Careful(talk: Talk, owner: nat) {
    forall k | 0 <= k < |talk| :: Permitted(talk, owner, k)
  }

  lemma StaysCareful(talk: Talk, e: Exchange, owner: nat)
    requires Careful(talk, owner) && Permitted(talk + [e], owner, |talk|)
    ensures Careful(talk + [e], owner)
  {
    forall k | 0 <= k < |talk + [e]| ensures Permitted(talk + [e], owner, k) {
      if k < |talk| { assert Permitted(talk, owner, k); }
    }
  }

  predicate Answers(talk: Talk, answers: nat -> Answer) {
    forall k | 0 <= k < |talk| :: talk[k].answer == answers(k)
  }

  /** The last answer to a request that should have succeeded did not. */
  predicate Fails(e: Exchange) {
    match e.request
    case Get => !e.answer.Found? && e.answer != Absent
    case Delete => e.answer != Accepted && e.answer != Absent
    case _ => e.answer != Accepted
  }

  predicate RefusedCreation(talk: Talk) {
    |talk| >= 2 && talk[|talk| - 2] == Exchange(Post, Conflict) && SeesNone(talk[|talk| - 1])
  }

  /** `ensure_application`. It completes exactly when the synchronisation that ends the conversation
      was accepted, is deferred exactly when its last look shows an operation in progress, and stops at
      the first foreign Application it sees. */
  method EnsureApplication(owner: nat, answers: nat -> Answer) returns (outcome: Outcome, talk: Talk)
    ensures talk != [] && Answers(talk, answers) && Careful(talk, owner)
    ensures forall k | 0 <= k < |talk| - 1 :: !SeesForeign(talk[k], owner) && !SeesBusy(talk[k], owner)
    ensures outcome == Completed <==> talk[|talk| - 1] == Exchange(Sync, Accepted)
    ensures outcome == Deferred <==> SeesBusy(talk[|talk| - 1], owner)
    ensures outcome == Foreign <==> SeesForeign(talk[|talk| - 1], owner)
    ensures outcome == Broken <==> Fails(talk[|talk| - 1]) || RefusedCreation(talk)
  {
    var existing := answers(0);
    talk := [Exchange(Get, existing)];
    if !existing.Found? && existing != Absent { return Broken, talk; }
    if existing.Found? && existing.app.owner != Some(owner) { return Foreign, talk; }
    if existing.Found? && existing.app.active { return Deferred, talk; }

    if existing == Absent {
      var created := answers(1);
      talk := talk + [Exchange(Post, created)];
      if created == Conflict {
        existing := answers(2);
        talk := talk + [Exchange(Get, existing)];
        if !existing.Found? { return Broken, talk; }
        if existing.app.owner != Some(owner) { return Foreign, talk; }
        if existing.app.active { return Deferred, talk; }
      } else if created != Accepted {
        return Broken, talk;
      }
    }

    outcome, talk := Converge(owner, answers, talk, existing.Found?);
  }

  /** The second half of the reconciliation: replace what exists, look again, synchronise. */
  method Converge(owner: nat, answers: nat -> Answer, before: Talk, replace: bool) returns (outcome: Outcome, talk: Talk)
    requires before != [] && Answers(before, answers) && Careful(before, owner)
    requires forall k | 0 <= k < |before| :: !SeesForeign(before[k], owner) && !SeesBusy(before[k], owner)
    requires if replace then SeesIdle(before[|before| - 1], owner) else Wrote(before[|before| - 1])
    ensures |talk| > |before| && Answers(talk, answers) && Careful(talk, owner)
    ensures forall k | 0 <= k < |talk| - 1 :: !SeesForeign(talk[k], owner) && !SeesBusy(talk[k], owner)
    ensures outcome == Completed <==> talk[|talk| - 1] == Exchange(Sync, Accepted)
    ensures outcome == Deferred <==> SeesBusy(talk[|talk| - 1], owner)
    ensures outcome == Foreign <==> SeesForeign(talk[|talk| - 1], owner)
    ensures outcome == Broken <==> Fails(talk[|talk| - 1])
    ensures !RefusedCreation(talk)
  {
    talk := before;
    if replace {
      var replaced := answers(|talk|);
      StaysCareful(talk, Exchange(Put, replaced), owner);
      talk := talk + [Exchange(Put, replaced)];
      if replaced != Accepted { return Broken, talk; }
    }

    var current := answers(|talk|);
    StaysCareful(talk, Exchange(Get, current), owner);
    talk := talk + [Exchange(Get, current)];
    if !current.Found? && current != Absent { return Broken, talk; }
    if current.Found? && current.app.owner != Some(owner) { return Foreign, talk; }
    if current.Found? && current.app.active { return Deferred, talk; }

    var synced := answers(|talk|);
    StaysCareful(talk, Exchange(Sync, synced), owner);
    talk := talk + [Exchange(Sync, synced)];
    outcome := if synced == Accepted then Completed else Broken;
  }

  /** `delete_application`. It completes exactly when the server's last answer is an absence, so an
      accepted deletion alone is never taken for a finished one. */
  method DeleteApplication(owner: nat, answers: nat -> Answer) returns (outcome: Outcome, talk: Talk)
    ensures talk != [] && Answers(talk, answers) && Careful(talk, owner)
    ensures forall k | 0 <= k < |talk| - 1 :: !SeesForeign(talk[k], owner)
    ensures outcome == Completed <==> talk[|talk| - 1].answer == Absent
    ensures outcome == Deferred <==> Owned(talk[|talk| - 1], owner)
    ensures SeesIdle(talk[0], owner) && !talk[0].answer.app.leaving ==> |talk| > 1 && talk[1].request == Delete
    ensures outcome == Foreign <==> SeesForeign(talk[|talk| - 1], owner)
    ensures outcome == Broken <==> Fails(talk[|talk| - 1])
  {
    var existing := answers(0);
    talk := [Exchange(Get, existing)];
    if existing == Absent { return Completed, talk; }
    if !existing.Found? { return Broken, talk; }
    if existing.app.owner != Some(owner) { return Foreign, talk; }
    if existing.app.active || existing.app.leaving { return Deferred, talk; }

    var deleted := answers(1);
    talk := talk + [Exchange(Delete, deleted)];
    if deleted == Absent { return Completed, talk; }
    if deleted != Accepted { return Broken, talk; }

    var remaining := answers(2);
    talk := talk + [Exchange(Get, remaining)];
    if remaining == Absent { return Completed, talk; }
    if !remaining.Found? { return Broken, talk; }
    if remaining.app.owner != Some(owner) { return Foreign, talk; }
    outcome := Deferred;
  }
}
