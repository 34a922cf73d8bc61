/** The polling loops that empty a Coder instance, or one template of it, of workspaces. `Remotes` holds
    the answer of every remote request by its number, and `clock` the readings of the monotonic clock,
    which strictly increase. */
module WorkspaceRemoval {
  import opened Records
  import opened Inventory

  datatype Build = Build(id: nat, status: BuildStatus, transition: Transition)

  datatype Remotes = Remotes(
    listing: Listing,
    builds: (nat, nat) -> Option<Build>,
    submissions: (nat, nat) -> Option<Build>,
    clock: nat -> int)

  ghost predicate Ticks(clock: nat -> int) {
    forall t: nat :: clock(t) < clock(t + 1)
  }

  predicate Active(status: BuildStatus) {
    status == Queued || status == BuildStatus.Starting || status == BuildStatus.Stopping || status == Canceling
    || status == BuildStatus.Deleting
  }

  predicate DeleteFailed(status: BuildStatus) {
    status == Failed || status == Canceled
  }

  // ---------- what one scan finds ----------

  /** Each workspace of a scan is exactly one of: an existing delete to await, another active build to
      await, or one delete to submit. */
  predicate AwaitsDelete(w: Remote) { Active(w.status) && w.transition == Delete }
  predicate AwaitsOther(w: Remote) { Active(w.status) && w.transition != Delete }
  predicate Submits(w: Remote) { !Active(w.status) }

  /** The workspaces for which a scan submits a delete build, one each, in order. */
  function Submitted(ws: seq<Remote>): seq<nat> {
    if ws == [] then [] else (if Submits(ws[0]) then [ws[0].id] else []) + Submitted(ws[1..])
  }

  /** The builds to await after a scan. */
  datatype Backlog = Backlog(blocking: set<nat>, deleting: set<nat>)

  function AddActive(p: Backlog, w: Remote): Backlog {
    if w.transition == Delete then p.(deleting := p.deleting + {w.build}) else p.(blocking := p.blocking + {w.build})
  }

  function AddSubmitted(p: Backlog, b: Build): Backlog {
    if b.status != Deleted then p.(deleting := p.deleting + {b.id}) else p
  }

  /** The loop over the workspaces of one scan: what it still has to await, and the next request. */
  function Sweep(r: Remotes, n: nat, ws: seq<Remote>, p: Backlog): (Answer<Backlog>, nat)
    decreases |ws|
  {
    if ws == [] then (Done(p), n)
    else if Active(ws[0].status) then Sweep(r, n, ws[1..], AddActive(p, ws[0]))
    else match r.submissions(n, ws[0].id)
      case None => (Bad(RequestFailed), n + 1)
      case Some(b) =>
        if b.transition != Delete then (Bad(UnexpectedTransition), n + 1)
        else if DeleteFailed(b.status) then (Bad(BuildFailed), n + 1)
        else Sweep(r, n + 1, ws[1..], AddSubmitted(p, b))
  }

  method SubmitDeletes(r: Remotes, n: nat, ws: seq<Remote>) returns (answer: Answer<Backlog>, next: nat)
    ensures (answer, next) == Sweep(r, n, ws, Backlog({}, {}))
  {
    next := n;
    var p := Backlog({}, {});
    var k := 0;
    assert ws[0..] == ws;
    while k < |ws|
      invariant k <= |ws| && Sweep(r, next, ws[k..], p) == Sweep(r, n, ws, Backlog({}, {}))
    {
      var w := ws[k];
      assert ws[k..][0] == w && ws[k..][1..] == ws[k + 1..];
      if Active(w.status) {
        if w.transition == Delete { p := p.(deleting := p.deleting + {w.build}); } else { p := p.(blocking := p.blocking + {w.build}); }
      } else {
        var build := r.submissions(next, w.id);
        next := next + 1;
        if build.None? { return Bad(RequestFailed), next; }
        if build.value.transition != Delete { return Bad(UnexpectedTransition), next; }
        if DeleteFailed(build.value.status) { return Bad(BuildFailed), next; }
        if build.value.status != Deleted { p := p.(deleting := p.deleting + {build.value.id}); }
      }
      k := k + 1;
    }
    answer := Done(p);
  }

  /** The answer to the `j`-th submission was a delete build that has not failed. */
  predicate SubmissionOk(r: Remotes, n: nat, id: nat) {
    && r.submissions(n, id).Some? && r.submissions(n, id).value.transition == Delete
    && r.submissions(n, id).value.status != Failed && r.submissions(n, id).value.status != Canceled
  }

  /** A sweep submits at most one delete for each workspace without an active build, and exactly one when
      it succeeds; it then awaits every active build it found and every delete it submitted. */
  lemma {:induction false} SweepMeaning(r: Remotes, n: nat, ws: seq<Remote>, p: Backlog)
    ensures var (answer, next) := Sweep(r, n, ws, p);
            && n <= next <= n + |Submitted(ws)|
            && (answer.Done? ==>
                  && next == n + |Submitted(ws)|
                  && (forall j :: 0 <= j < |Submitted(ws)| ==> SubmissionOk(r, n + j, Submitted(ws)[j]))
                  && (forall j :: 0 <= j < |Submitted(ws)| && r.submissions(n + j, Submitted(ws)[j]).value.status != Deleted ==>
                        r.submissions(n + j, Submitted(ws)[j]).value.id in answer.value.deleting))
    decreases |ws|
  {
    if ws != [] {
      if Active(ws[0].status) {
        SweepMeaning(r, n, ws[1..], AddActive(p, ws[0]));
      } else if SubmissionOk(r, n, ws[0].id) {
        var b := r.submissions(n, ws[0].id).value;
        SweepMeaning(r, n + 1, ws[1..], AddSubmitted(p, b));
        SweepGrows(r, n + 1, ws[1..], AddSubmitted(p, b));
        var all, rest := Submitted(ws), Submitted(ws[1..]);
        assert all == [ws[0].id] + rest;
        if Sweep(r, n, ws, p).0.Done? {
          var q := Sweep(r, n, ws, p).0.value;
          forall j | 0 <= j < |all|
            ensures SubmissionOk(r, n + j, all[j])
            ensures r.submissions(n + j, all[j]).value.status != Deleted ==> r.submissions(n + j, all[j]).value.id in q.deleting
          {
            if j > 0 { assert all[j] == rest[j - 1] && n + j == n + 1 + (j - 1); }
          }
        }
      }
    }
  }

  /** Nothing to await is forgotten, and exactly the other active builds block. */
  lemma {:induction false} SweepGrows(r: Remotes, n: nat, ws: seq<Remote>, p: Backlog)
    ensures var answer := Sweep(r, n, ws, p).0;
            answer.Done? ==>
              && p.deleting <= answer.value.deleting
              && (forall w <- ws :: AwaitsDelete(w) ==> w.build in answer.value.deleting)
              && answer.value.blocking == p.blocking + (set w <- ws | AwaitsOther(w) :: w.build)
    decreases |ws|
  {
    if ws != [] {
      assert forall w <- ws :: w == ws[0] || w in ws[1..];
      if Active(ws[0].status) {
        SweepGrows(r, n, ws[1..], AddActive(p, ws[0]));
      } else if SubmissionOk(r, n, ws[0].id) {
        SweepGrows(r, n + 1, ws[1..], AddSubmitted(p, r.submissions(n, ws[0].id).value));
      }
    }
  }

  /** Each workspace without an active build gets exactly one submission; one whose delete or other build
      is awaited gets none, and nobody else does. */
  lemma {:induction false} SubmittedExactly(ws: seq<Remote>)
    requires Distinct(ws)
    ensures forall i, j :: 0 <= i < j < |Submitted(ws)| ==> Submitted(ws)[i] != Submitted(ws)[j]
    ensures forall id :: id in Submitted(ws) <==> exists w :: w in ws && Submits(w) && w.id == id
    ensures forall w <- ws :: w.id in Submitted(ws) <==> !AwaitsDelete(w) && !AwaitsOther(w)
    ensures forall w <- ws :: w.id in Submitted(ws) <==>
              w.status == Started || w.status == Stopped || w.status == Failed || w.status == Canceled || w.status == Deleted
    decreases |ws|
  {
    if ws != [] {
      SubmittedExactly(ws[1..]);
      var rest := Submitted(ws[1..]);
      assert forall w <- ws[1..] :: w.id != ws[0].id;
      assert forall w :: w in ws <==> w == ws[0] || w in ws[1..];
      assert ws[0].id !in rest;
      assert Submitted(ws) == (if Submits(ws[0]) then [ws[0].id] else []) + rest;
    }
  }

  // ---------- waiting ----------

  /** Some request of the wait saw the build done: no longer active, or deleted by a delete build. */
  ghost predicate SeenIdle(r: Remotes, from: nat, to: nat, id: nat) {
    exists m: nat :: from <= m < to && r.builds(m, id).Some? && !AtWork(r.builds(m, id).value.status)
  }

  ghost predicate SeenDeleted(r: Remotes, from: nat, to: nat, id: nat) {
    exists m: nat :: from <= m < to && r.builds(m, id).Some?
      && r.builds(m, id).value.status == Deleted && r.builds(m, id).value.transition == Delete
  }

  /** Some request of the wait saw the build at work, waiting to start included. */
  ghost predicate SeenActive(r: Remotes, from: nat, to: nat, id: nat) {
    exists m: nat :: from <= m < to && r.builds(m, id).Some? && AtWork(r.builds(m, id).value.status)
  }

  predicate AtWork(status: BuildStatus) {
    status == Queued || status == BuildStatus.Starting || status == BuildStatus.Stopping || status == Canceling
    || status == BuildStatus.Deleting
  }

  /** Some request saw a delete build that has neither finished nor failed. */
  ghost predicate SeenUndeleted(r: Remotes, from: nat, to: nat, id: nat) {
    exists m: nat :: from <= m < to && r.builds(m, id).Some? && r.builds(m, id).value.transition == Delete
      && r.builds(m, id).value.status != Deleted && r.builds(m, id).value.status != Failed && r.builds(m, id).value.status != Canceled
  }

  /** The answer that makes a wait fail: none at all, a build that is no delete, or a delete that failed. */
  predicate Breaks(build: Option<Build>, fault: Fault) {
    match fault
    case RequestFailed => build.None?
    case UnexpectedTransition => build.Some? && build.value.transition != Delete
    case BuildFailed => build.Some? && (build.value.status == Failed || build.value.status == Canceled)
    case _ => false
  }

  ghost predicate Broken(r: Remotes, from: nat, to: nat, fault: Fault) {
    exists m: nat, id: nat :: from <= m < to && Breaks(r.builds(m, id), fault)
  }

  /** The clock had reached the deadline. */
  ghost predicate Late(r: Remotes, t: nat, tick: nat, deadline: int) {
    exists k: nat :: t <= k < tick && r.clock(k) >= deadline
  }

  /** One pass over the blocking builds, in whatever order the set yields them. */
  method PollBlocking(r: Remotes, n: nat, blocking: set<nat>) returns (answer: Answer<set<nat>>, next: nat)
    ensures next >= n
    ensures answer.Done? ==> answer.value <= blocking && forall id <- blocking :: id in answer.value || SeenIdle(r, n, next, id)
    ensures answer.Done? ==> forall id <- answer.value :: SeenActive(r, n, next, id)
    ensures answer.Bad? ==> Broken(r, n, next, answer.fault)
  {
    next := n;
    var left, still := blocking, blocking;
    while left != {}
      invariant next >= n && left <= blocking && still <= blocking && left <= still
      invariant forall id <- blocking :: id in still || SeenIdle(r, n, next, id)
      invariant forall id <- still :: id in left || SeenActive(r, n, next, id)
      decreases left
    {
      var id :| id in left;
      left := left - {id};
      var build := r.builds(next, id);
      next := next + 1;
      assert n <= next - 1 < next && r.builds(next - 1, id) == build;
      if build.None? { assert Breaks(r.builds(next - 1, id), RequestFailed); return Bad(RequestFailed), next; }
      if !Active(build.value.status) {
        still := still - {id};
      }
    }
    answer := Done(still);
  }

  method PollDeleting(r: Remotes, n: nat, deleting: set<nat>) returns (answer: Answer<set<nat>>, next: nat)
    ensures next >= n
    ensures answer.Done? ==> answer.value <= deleting && forall id <- deleting :: id in answer.value || SeenDeleted(r, n, next, id)
    ensures answer.Done? ==> forall id <- answer.value :: SeenUndeleted(r, n, next, id)
    ensures answer.Bad? ==> Broken(r, n, next, answer.fault)
  {
    next := n;
    var left, still := deleting, deleting;
    while left != {}
      invariant next >= n && left <= deleting && still <= deleting && left <= still
      invariant forall id <- deleting :: id in still || SeenDeleted(r, n, next, id)
      invariant forall id <- still :: id in left || SeenUndeleted(r, n, next, id)
      decreases left
    {
      var id :| id in left;
      left := left - {id};
      var build := r.builds(next, id);
      next := next + 1;
      assert n <= next - 1 < next && r.builds(next - 1, id) == build;
      if build.None? { assert Breaks(r.builds(next - 1, id), RequestFailed); return Bad(RequestFailed), next; }
      if build.value.transition != Delete {
        assert Breaks(r.builds(next - 1, id), UnexpectedTransition);
        return Bad(UnexpectedTransition), next;
      }
      if build.value.status == Deleted {
        still := still - {id};
      } else if DeleteFailed(build.value.status) {
        assert Breaks(r.builds(next - 1, id), BuildFailed);
        return Bad(BuildFailed), next;
      }
    }
    answer := Done(still);
  }

  lemma SeenLater(r: Remotes, from: nat, to: nat, from': nat, to': nat, id: nat)
    requires from <= from' <= to' <= to
    ensures SeenIdle(r, from', to', id) ==> SeenIdle(r, from, to, id)
    ensures SeenDeleted(r, from', to', id) ==> SeenDeleted(r, from, to, id)
  {}

  /** `_wait_workspace_deletions`: it ends by the deadline, and returns only after it has seen every
      blocking build idle and every delete build deleted; it gives up only at the deadline or for an
      answer that breaks it. */
  method WaitDeletions(r: Remotes, n: nat, t: nat, deadline: int, p: Backlog) returns (answer: Answer<()>, next: nat, tick: nat)
    requires Ticks(r.clock)
    ensures next >= n && tick >= t
    ensures answer.Done? ==>
              && (forall id <- p.blocking :: SeenIdle(r, n, next, id))
              && (forall id <- p.deleting :: SeenDeleted(r, n, next, id))
    ensures answer.Bad? ==> (answer.fault == TimedOut && Late(r, t, tick, deadline)) || Broken(r, n, next, answer.fault)
  {
    next, tick := n, t;
    var blocking, deleting := p.blocking, p.deleting;
    while blocking != {} || deleting != {}
      invariant next >= n && tick >= t
      invariant forall id <- p.blocking :: id in blocking || SeenIdle(r, n, next, id)
      invariant forall id <- p.deleting :: id in deleting || SeenDeleted(r, n, next, id)
      decreases deadline - r.clock(tick)
    {
      if r.clock(tick) >= deadline { return Bad(TimedOut), next, tick + 1; }
      assert r.clock(tick) < r.clock(tick + 1);
      tick := tick + 1;
      var idle, next1 := PollBlocking(r, next, blocking);
      if idle.Bad? { return Bad(idle.fault), next1, tick; }
      var gone, next2 := PollDeleting(r, next1, deleting);
      if gone.Bad? { return Bad(gone.fault), next2, tick; }
      forall id | id in p.blocking && id !in idle.value ensures SeenIdle(r, n, next2, id) {
        if id in blocking { SeenLater(r, n, next2, next, next1, id); } else { SeenLater(r, n, next2, n, next, id); }
      }
      forall id | id in p.deleting && id !in gone.value ensures SeenDeleted(r, n, next2, id) {
        if id in deleting { SeenLater(r, n, next2, next1, next2, id); } else { SeenLater(r, n, next2, n, next, id); }
      }
      blocking, deleting, next := idle.value, gone.value, next2;
    }
    answer := Done(());
  }

  // ---------- what becomes of one workspace ----------

  /** The delete that was accepted for it, and awaited unless it had already finished. */
  ghost predicate Submission(r: Remotes, from: nat, to: nat, id: nat) {
    exists q: nat :: from <= q < to && SubmissionOk(r, q, id)
      && (r.submissions(q, id).value.status != Deleted ==> SeenDeleted(r, from, to, r.submissions(q, id).value.id))
  }

  /** Between two requests the workspace of a scan was dealt with in the one way that fits it. */
  ghost predicate Disposed(r: Remotes, from: nat, to: nat, w: Remote) {
    if AwaitsDelete(w) then SeenDeleted(r, from, to, w.build)
    else if AwaitsOther(w) then SeenIdle(r, from, to, w.build)
    else Submission(r, from, to, w.id)
  }

  /** What makes a removal give up besides the deadline: an answer to a wait or to a submission, a scan that
      fails, or a listing that does not say to which template a workspace belongs. */
  ghost predicate Troubled(r: Remotes, from: nat, to: nat, only: Option<nat>, fault: Fault) {
    || Broken(r, from, to, fault)
    || (exists m: nat, id: nat :: from <= m < to && Breaks(r.submissions(m, id), fault))
    || (exists m: nat :: from <= m < to && Scan(r.listing, m, 0, None, map[]).0 == Bad(fault))
    || (fault == NoTemplates && only.Some? && exists m: nat, o: nat, w :: from <= m < to && Answered(r.listing, m, o, w) && w.template.None?)
  }

  lemma TroubledLater(r: Remotes, from: nat, to: nat, from': nat, to': nat, only: Option<nat>, fault: Fault)
    requires from <= from' <= to' <= to && Troubled(r, from', to', only, fault)
    ensures Troubled(r, from, to, only, fault)
  {
    hide Scan, Answered, Breaks;
  }

  lemma BrokenTroubles(r: Remotes, from: nat, from': nat, to: nat, only: Option<nat>, fault: Fault)
    requires from <= from' <= to && Broken(r, from', to, fault)
    ensures Troubled(r, from, to, only, fault)
  {
    hide Scan, Answered, Breaks;
  }

  lemma SubmissionTroubles(r: Remotes, from: nat, to: nat, only: Option<nat>, fault: Fault)
    requires exists m: nat, id: nat :: from <= m < to && Breaks(r.submissions(m, id), fault)
    ensures Troubled(r, from, to, only, fault)
  {
    hide Scan, Answered, Breaks;
  }

  lemma LateMeans(r: Remotes, t: nat, tick: nat, deadline: int)
    ensures Late(r, t, tick, deadline) ==> exists k: nat :: k >= t && r.clock(k) >= deadline
  {}

  /** A failed sweep was broken by the answer to a submission. */
  lemma {:induction false} SweepBreaks(r: Remotes, n: nat, ws: seq<Remote>, p: Backlog)
    ensures var (answer, next) := Sweep(r, n, ws, p);
            answer.Bad? ==> exists m: nat, id: nat :: n <= m < next && Breaks(r.submissions(m, id), answer.fault)
    decreases |ws|
  {
    if ws != [] {
      if Active(ws[0].status) {
        SweepBreaks(r, n, ws[1..], AddActive(p, ws[0]));
      } else {
        var answer := r.submissions(n, ws[0].id);
        if answer.Some? { SweepBreaks(r, n + 1, ws[1..], AddSubmitted(p, answer.value)); }
        if answer.None? { assert Breaks(r.submissions(n, ws[0].id), RequestFailed); }
        else if answer.value.transition != Delete { assert Breaks(r.submissions(n, ws[0].id), UnexpectedTransition); }
        else if DeleteFailed(answer.value.status) { assert Breaks(r.submissions(n, ws[0].id), BuildFailed); }
      }
    }
  }

  /** Some request listed the workspace, chosen by the removal, and it was dealt with. */
  ghost predicate Removed(r: Remotes, from: nat, to: nat, only: Option<nat>, id: nat) {
    exists m: nat, o: nat, w ::
      from <= m < to && Answered(r.listing, m, o, w) && w.id == id && (only.None? || w.template == only) && Disposed(r, from, to, w)
  }

  lemma DisposedLater(r: Remotes, from: nat, to: nat, from': nat, to': nat, w: Remote)
    requires from <= from' <= to' <= to && Disposed(r, from', to', w)
    ensures Disposed(r, from, to, w)
  {
    SeenLater(r, from, to, from', to', w.build);
    if Submits(w) {
      var q: nat :| from' <= q < to' && SubmissionOk(r, q, w.id)
        && (r.submissions(q, w.id).value.status != Deleted ==> SeenDeleted(r, from', to', r.submissions(q, w.id).value.id));
      SeenLater(r, from, to, from', to', r.submissions(q, w.id).value.id);
      assert SubmissionOk(r, q, w.id);
    }
  }

  lemma RemovedLater(r: Remotes, from: nat, to': nat, to: nat, only: Option<nat>, id: nat)
    requires from <= to' <= to && Removed(r, from, to', only, id)
    ensures Removed(r, from, to, only, id)
  {
    var m: nat, o: nat, w :| from <= m < to' && Answered(r.listing, m, o, w) && w.id == id
      && (only.None? || w.template == only) && Disposed(r, from, to', w);
    DisposedLater(r, from, to, from, to', w);
  }

  lemma {:induction false} SubmittedHas(ws: seq<Remote>, w: Remote) returns (j: nat)
    requires w in ws && Submits(w)
    ensures j < |Submitted(ws)| && Submitted(ws)[j] == w.id
    decreases |ws|
  {
    if ws[0] == w {
      j := 0;
    } else {
      j := SubmittedHas(ws[1..], w);
      if Submits(ws[0]) { j := j + 1; }
    }
  }

  /** A finished sweep and the wait after it deal with every workspace. */
  lemma SweepDisposes(r: Remotes, n: nat, mid: nat, to: nat, ws: seq<Remote>, p: Backlog)
    requires Sweep(r, n, ws, Backlog({}, {})) == (Done(p), mid) && mid <= to
    requires forall id <- p.blocking :: SeenIdle(r, mid, to, id)
    requires forall id <- p.deleting :: SeenDeleted(r, mid, to, id)
    ensures forall w <- ws :: Disposed(r, n, to, w)
  {
    SweepMeaning(r, n, ws, Backlog({}, {}));
    SweepGrows(r, n, ws, Backlog({}, {}));
    forall w | w in ws ensures Disposed(r, n, to, w) {
      if AwaitsDelete(w) || AwaitsOther(w) {
        SeenLater(r, n, to, mid, to, w.build);
      } else {
        var j := SubmittedHas(ws, w);
        assert SubmissionOk(r, n + j, w.id);
        SeenLater(r, n, to, mid, to, r.submissions(n + j, w.id).value.id);
      }
    }
  }

  // ---------- delete until a full scan is empty ----------

  /** The workspaces that a removal is about: all of them, or those of one template. */
  function Chosen(ws: seq<Remote>, only: Option<nat>): seq<Remote> {
    if ws == [] then []
    else Chosen(ws[..|ws| - 1], only)
         + if only.None? || ws[|ws| - 1].template == only then [ws[|ws| - 1]] else []
  }

  lemma {:induction false} ChosenAll(ws: seq<Remote>)
    ensures Chosen(ws, None) == ws
  {
    if ws != [] {
      ChosenAll(ws[..|ws| - 1]);
      assert ws[..|ws| - 1] + [ws[|ws| - 1]] == ws;
    }
  }

  lemma {:induction false} ChosenMembers(ws: seq<Remote>, only: Option<nat>)
    ensures forall w :: w in Chosen(ws, only) <==> w in ws && (only.None? || w.template == only)
  {
    if ws != [] {
      var last := ws[|ws| - 1];
      ChosenMembers(ws[..|ws| - 1], only);
      assert forall w :: w in ws <==> w in ws[..|ws| - 1] || w == last;
    }
  }

  /** The last full scan, at request `m`, counted `count` workspaces and showed none of the chosen ones. */
  ghost predicate Emptied(r: Remotes, m: nat, only: Option<nat>) {
    var scanned := Scan(r.listing, m, 0, None, map[]).0;
    scanned.Done? && forall k <- scanned.value :: only.Some? && scanned.value[k].template.Some? && scanned.value[k].template != only
  }

  /** `delete_all_workspaces` for no template and `delete_template_workspaces` for one, after the wait for
      Coder. The loop ends by the deadline; it returns only after a complete scan without any chosen
      workspace, and answers only workspaces that some scan chose and that were dealt with. */
  method DeleteWorkspaces(r: Remotes, n: nat, t: nat, deadline: int, only: Option<nat>)
    returns (answer: Answer<set<nat>>, next: nat)
    requires Ticks(r.clock)
    ensures answer.Done? ==> exists m: nat :: n <= m < next && Emptied(r, m, only)
    ensures answer.Done? ==> forall id <- answer.value :: Removed(r, n, next, only, id)
    ensures answer.Bad? ==> (answer.fault == TimedOut && exists k: nat :: k >= t && r.clock(k) >= deadline) || Troubled(r, n, next, only, answer.fault)
  {
    hide Troubled, Broken, Late, Removed, Disposed, Listed, Emptied, Sweep, SeenIdle, SeenDeleted;
    next := n;
    var tick := t;
    var deleted: set<nat> := {};
    while true
      invariant next >= n && tick >= t
      invariant forall id <- deleted :: Removed(r, n, next, only, id)
      decreases deadline - r.clock(tick)
    {
      if r.clock(tick) >= deadline { return Bad(TimedOut), next; }
      ghost var before := tick;
      tick := tick + 1;
      var ws, next1 := ChosenWorkspaces(r, next, only);
      if ws.Bad? { TroubledLater(r, n, next1, next, next1, only, ws.fault); return Bad(ws.fault), next1; }
      if ws.value == [] {
        forall id | id in deleted ensures Removed(r, n, next1, only, id) { RemovedLater(r, n, next, next1, only, id); }
        return Done(deleted), next1;
      }
      var backlog, next2 := SubmitDeletes(r, next1, ws.value);
      SweepMeaning(r, next1, ws.value, Backlog({}, {}));
      if backlog.Bad? {
        SweepBreaks(r, next1, ws.value, Backlog({}, {}));
        SubmissionTroubles(r, next1, next2, only, backlog.fault);
        TroubledLater(r, n, next2, next1, next2, only, backlog.fault);
        return Bad(backlog.fault), next2;
      }
      ghost var earlier := deleted;
      deleted := deleted + set w <- ws.value :: w.id;
      var waited, next3, tick3 := WaitDeletions(r, next2, tick, deadline, backlog.value);
      if waited.Bad? {
        LateMeans(r, tick, tick3, deadline);
        if Broken(r, next2, next3, waited.fault) { BrokenTroubles(r, n, next2, next3, only, waited.fault); }
        return Bad(waited.fault), next3;
      }
      ClockRuns(r.clock, before + 1, tick3 - (before + 1));
      assert r.clock(before) < r.clock(before + 1);
      SweepDisposes(r, next1, next2, next3, ws.value, backlog.value);
      forall id | id in deleted ensures Removed(r, n, next3, only, id) {
        if id in earlier { RemovedLater(r, n, next, next3, only, id); }
        else { NewlyRemoved(r, n, next, next1, next3, only, ws.value, id); }
      }
      next, tick := next3, tick3;
    }
  }

  lemma NewlyRemoved(r: Remotes, n: nat, from: nat, mid: nat, to: nat, only: Option<nat>, ws: seq<Remote>, id: nat)
    requires n <= from <= mid <= to && exists w <- ws :: w.id == id
    requires forall w <- ws :: Listed(r, from, mid, only, w)
    requires forall w <- ws :: Disposed(r, mid, to, w)
    ensures Removed(r, n, to, only, id)
  {
    var w :| w in ws && w.id == id;
    assert Listed(r, from, mid, only, w);
    var m: nat, o: nat :| from <= m < mid && Answered(r.listing, m, o, w);
    DisposedLater(r, n, to, mid, to, w);
  }

  ghost predicate Listed(r: Remotes, from: nat, to: nat, only: Option<nat>, w: Remote) {
    (only.None? || w.template == only) && exists m: nat, o: nat :: from <= m < to && Answered(r.listing, m, o, w)
  }

  /** One complete scan, `_all_workspaces` or `_template_workspaces`. */
  method ChosenWorkspaces(r: Remotes, n: nat, only: Option<nat>) returns (answer: Answer<seq<Remote>>, next: nat)
    ensures next > n
    ensures answer == Done([]) ==> Emptied(r, n, only)
    ensures answer.Done? ==> forall w <- answer.value :: Listed(r, n, next, only, w)
    ensures answer.Bad? ==> Troubled(r, n, next, only, answer.fault)
  {
    ScanComplete(r.listing, n, 0, None, map[]);
    var all;
    all, next := AllWorkspaces(r.listing, n);
    if all.Bad? { return Bad(all.fault), next; }
    if only.Some? && exists w <- all.value :: w.template.None? {
      ghost var scanned := Scan(r.listing, n, 0, None, map[]).0;
      ghost var w :| w in all.value && w.template.None?;
      assert w.id in scanned.value && scanned.value[w.id] == w;
      return Bad(NoTemplates), next;
    }
    var ws := Chosen(all.value, only);
    ChosenMembers(all.value, only);
    if ws == [] {
      var scanned := Scan(r.listing, n, 0, None, map[]).0;
      forall k | k in scanned.value ensures only.Some? && scanned.value[k].template.Some? && scanned.value[k].template != only {
        assert scanned.value[k] in all.value;
      }
    }
    forall w | w in ws ensures Listed(r, n, next, only, w) {
      var scanned := Scan(r.listing, n, 0, None, map[]).0;
      assert w.id in scanned.value && scanned.value[w.id] == w;
    }
    answer := Done(ws);
  }

  lemma {:induction false} ClockRuns(clock: nat -> int, from: nat, steps: nat)
    requires Ticks(clock)
    ensures clock(from) <= clock(from + steps)
  {
    if steps > 0 {
      ClockRuns(clock, from, steps - 1);
      assert clock(from + steps - 1) < clock(from + steps - 1 + 1);
    }
  }

  /** Without a template to look for, the last scan was one request that counted nothing. */
  lemma EmptiedMeansEmpty(r: Remotes, m: nat)
    requires Emptied(r, m, None)
    ensures Ask(r.listing, m, 0) == Some(Page([], 0))
  {
    var scanned := Scan(r.listing, m, 0, None, map[]).0;
    assert scanned.value == map[];
    EmptyScan(r.listing, m);
  }
}
