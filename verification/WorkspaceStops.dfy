/** Stopping every running or starting workspace before an instance shuts down. */
module WorkspaceStops {
  import opened Records
  import opened Inventory
  import Removal = WorkspaceRemoval

  datatype Remotes = Remotes(
    listings: (BuildStatus, nat, nat) -> Option<Page>,
    builds: (nat, nat) -> Option<Removal.Build>,
    submissions: (nat, nat) -> Option<Removal.Build>,
    clock: nat -> int)

  const OBSERVED: seq<BuildStatus> := [Started, BuildStatus.Starting, BuildStatus.Stopping]

  function Answer1(r: Remotes, status: BuildStatus, n: nat, offset: nat): Option<Page> {
    match r.listings(status, n, offset)
    case None => None
    case Some(page) => if PageOk(page, offset) then Some(page) else None
  }

  /** The server never counts more than `bound` workspaces of one status; nothing else ends the listing. */
  ghost predicate Bounded(r: Remotes, bound: nat) {
    forall status, n: nat, offset: nat :: r.listings(status, n, offset).Some? ==> r.listings(status, n, offset).value.count <= bound
  }

  /** Some request of the scan counted no workspace of this status. */
  ghost predicate NoneOf(r: Remotes, status: BuildStatus, from: nat, to: nat) {
    exists m: nat :: from <= m < to && Answer1(r, status, m, 0) == Some(Page([], 0))
  }

  ghost predicate NoneActive(r: Remotes, from: nat, to: nat) {
    NoneOf(r, Started, from, to) && NoneOf(r, BuildStatus.Starting, from, to) && NoneOf(r, BuildStatus.Stopping, from, to)
  }

  /** Only a request without a valid answer makes the listing fail. */
  ghost predicate ListingBroken(r: Remotes, from: nat, to: nat, fault: Fault) {
    fault == RequestFailed && exists status, m: nat, o: nat :: from <= m < to && Answer1(r, status, m, o).None?
  }

  lemma ListingBrokenLater(r: Remotes, from': nat, to': nat, from: nat, to: nat, fault: Fault)
    requires from <= from' <= to' <= to && ListingBroken(r, from', to', fault)
    ensures ListingBroken(r, from, to, fault)
  {}

  /** Some request for an observed status answered the workspace. */
  ghost predicate Listed(r: Remotes, from: nat, to: nat, w: Remote) {
    exists status, m: nat, o: nat ::
      && (status == Started || status == BuildStatus.Starting || status == BuildStatus.Stopping)
      && from <= m < to && Shown(r, status, m, o, w)
  }

  predicate Shown(r: Remotes, status: BuildStatus, m: nat, o: nat, w: Remote) {
    Answer1(r, status, m, o).Some? && w in Answer1(r, status, m, o).value.items
  }

  /** The pages of one status; a workspace seen twice keeps its later row. */
  method OneStatus(r: Remotes, status: BuildStatus, n: nat, found: map<nat, Remote>, ghost bound: nat)
    returns (answer: Answer<map<nat, Remote>>, next: nat)
    requires Bounded(r, bound) && (forall k <- found :: found[k].id == k) && status in OBSERVED
    ensures next >= n
    ensures answer.Done? ==>
              && (forall k <- answer.value :: answer.value[k].id == k) && found.Keys <= answer.value.Keys
              && (forall k <- answer.value :: (k in found && answer.value[k] == found[k]) || Listed(r, n, next, answer.value[k]))
              && (answer.value == map[] ==> NoneOf(r, status, n, next))
    ensures answer.Bad? ==> ListingBroken(r, n, next, answer.fault)
  {
    hide Listed, ListingBroken, Bounded;
    next := n;
    var all := found;
    var offset: nat := 0;
    while true
      invariant next >= n && found.Keys <= all.Keys && (forall k <- all :: all[k].id == k)
      invariant forall k <- all :: (k in found && all[k] == found[k]) || Listed(r, n, next, all[k])
      invariant if offset == 0 then next == n else all != map[]
      decreases bound - offset
    {
      var page := Answer1(r, status, next, offset);
      if page.None? { NoAnswer(r, status, n, next, offset); return Bad(RequestFailed), next + 1; }
      PageBounded(r, status, next, offset, bound);
      var items := page.value.items;
      ghost var before := all;
      all := AddRows(all, items);
      forall k | k in all ensures (k in found && all[k] == found[k]) || Listed(r, n, next + 1, all[k]) {
        if k in before && all[k] == before[k] {
          if !(k in found && before[k] == found[k]) { ListedLater(r, n, next, n, next + 1, before[k]); }
        } else {
          ItemListed(r, status, n, next, offset, all[k]);
        }
      }
      if offset == 0 && items == [] { assert Answer1(r, status, next, 0) == Some(Page([], 0)); }
      next := next + 1;
      offset := offset + |items|;
      if offset >= page.value.count { break; }
      if items == [] { return Bad(NotAdvancing), next; }
    }
    answer := Done(all);
  }

  /** The rows of one page; a later row replaces an earlier one. */
  method AddRows(found: map<nat, Remote>, items: seq<Remote>) returns (all: map<nat, Remote>)
    requires forall k <- found :: found[k].id == k
    ensures found.Keys <= all.Keys && (forall k <- all :: all[k].id == k)
    ensures forall k <- all :: (k in found && all[k] == found[k]) || all[k] in items
    ensures items != [] || found != map[] ==> all != map[]
    ensures items == [] ==> all == found
  {
    all := found;
    var k := 0;
    while k < |items|
      invariant k <= |items| && found.Keys <= all.Keys && (forall i <- all :: all[i].id == i)
      invariant forall i <- all :: (i in found && all[i] == found[i]) || all[i] in items
      invariant k > 0 || found != map[] ==> all != map[]
      invariant k == 0 ==> all == found
    {
      all := all[items[k].id := items[k]];
      assert items[k].id in all;
      k := k + 1;
    }
  }

  lemma NoAnswer(r: Remotes, status: BuildStatus, n: nat, m: nat, o: nat)
    requires n <= m && Answer1(r, status, m, o).None?
    ensures ListingBroken(r, n, m + 1, RequestFailed)
  {
    hide Answer1;
  }

  lemma PageBounded(r: Remotes, status: BuildStatus, m: nat, o: nat, bound: nat)
    requires Bounded(r, bound) && Answer1(r, status, m, o).Some?
    ensures var page := Answer1(r, status, m, o).value; page.count <= bound && (page.count > o ==> page.items != [])
  {}

  lemma ItemListed(r: Remotes, status: BuildStatus, n: nat, m: nat, o: nat, w: Remote)
    requires n <= m && status in OBSERVED && Answer1(r, status, m, o).Some? && w in Answer1(r, status, m, o).value.items
    ensures Listed(r, n, m + 1, w)
  {
    assert Shown(r, status, m, o, w);
    hide Answer1;
  }

  /** `_active_workspaces`: the observed statuses one after the other. */
  method ActiveWorkspaces(r: Remotes, n: nat, ghost bound: nat) returns (answer: Answer<seq<Remote>>, next: nat)
    requires Bounded(r, bound)
    ensures next >= n
    ensures answer == Done([]) ==> NoneActive(r, n, next)
    ensures answer.Done? ==> forall w <- answer.value :: Listed(r, n, next, w)
    ensures answer.Bad? ==> ListingBroken(r, n, next, answer.fault)
  {
    hide NoneOf, Listed, Bounded, ListingBroken;
    next := n;
    var found: map<nat, Remote> := map[];
    var k := 0;
    while k < |OBSERVED|
      invariant k <= |OBSERVED| && next >= n && forall i <- found :: found[i].id == i
      invariant forall i <- found :: Listed(r, n, next, found[i])
      invariant found == map[] ==> forall j :: 0 <= j < k ==> NoneOf(r, OBSERVED[j], n, next)
    {
      ghost var before := next;
      var pages;
      pages, next := OneStatus(r, OBSERVED[k], next, found, bound);
      if pages.Bad? { ListingBrokenLater(r, before, next, n, next, pages.fault); return Bad(pages.fault), next; }
      if pages.value == map[] {
        assert found == map[];
        forall j | 0 <= j < k + 1 ensures NoneOf(r, OBSERVED[j], n, next) {
          if j < k { NoneOfLater(r, OBSERVED[j], n, before, n, next); } else { NoneOfLater(r, OBSERVED[k], before, next, n, next); }
        }
      }
      forall i | i in pages.value ensures Listed(r, n, next, pages.value[i]) {
        if i in found && pages.value[i] == found[i] { ListedLater(r, n, before, n, next, found[i]); }
        else { ListedLater(r, before, next, n, next, pages.value[i]); }
      }
      found := pages.value;
      k := k + 1;
    }
    var ws := InOrder(found);
    if ws == [] {
      assert found == map[];
      assert NoneOf(r, OBSERVED[0], n, next) && NoneOf(r, OBSERVED[1], n, next) && NoneOf(r, OBSERVED[2], n, next);
    }
    answer := Done(ws);
  }

  lemma NoneOfLater(r: Remotes, status: BuildStatus, from': nat, to': nat, from: nat, to: nat)
    requires from <= from' <= to' <= to && NoneOf(r, status, from', to')
    ensures NoneOf(r, status, from, to)
  {}

  lemma ListedLater(r: Remotes, from': nat, to': nat, from: nat, to: nat, w: Remote)
    requires from <= from' <= to' <= to && Listed(r, from', to', w)
    ensures Listed(r, from, to, w)
  {}

  predicate StopFailed(status: BuildStatus) {
    status == Failed || status == Canceled || status == Canceling || status == BuildStatus.Deleting || status == Deleted
  }

  ghost predicate SeenStopped(r: Remotes, from: nat, to: nat, id: nat) {
    exists m: nat :: from <= m < to && r.builds(m, id).Some?
      && r.builds(m, id).value.status == Stopped && r.builds(m, id).value.transition == Stop
  }

  /** Some request saw a stop build that has neither finished nor failed. */
  ghost predicate SeenUnstopped(r: Remotes, from: nat, to: nat, id: nat) {
    exists m: nat :: from <= m < to && r.builds(m, id).Some? && r.builds(m, id).value.transition == Stop
      && (r.builds(m, id).value.status == Queued || r.builds(m, id).value.status == BuildStatus.Starting
          || r.builds(m, id).value.status == Started || r.builds(m, id).value.status == BuildStatus.Stopping)
  }

  /** The answer that makes a stop fail: none at all, a build that is no stop, or a stop that failed. */
  predicate StopBreaks(build: Option<Removal.Build>, fault: Fault) {
    match fault
    case RequestFailed => build.None?
    case UnexpectedTransition => build.Some? && build.value.transition != Stop
    case BuildFailed =>
      build.Some? && (build.value.status == Failed || build.value.status == Canceled || build.value.status == Canceling
                      || build.value.status == BuildStatus.Deleting || build.value.status == Deleted)
    case _ => false
  }

  ghost predicate StopBroken(r: Remotes, from: nat, to: nat, fault: Fault) {
    exists m: nat, id: nat :: from <= m < to && (StopBreaks(r.builds(m, id), fault) || StopBreaks(r.submissions(m, id), fault))
  }

  lemma StopBrokenLater(r: Remotes, from': nat, to': nat, from: nat, to: nat, fault: Fault)
    requires from <= from' <= to' <= to && StopBroken(r, from', to', fault)
    ensures StopBroken(r, from, to, fault)
  {}

  ghost predicate Late(r: Remotes, t: nat, tick: nat, deadline: int) {
    exists k: nat :: t <= k < tick && r.clock(k) >= deadline
  }

  lemma LateMeans(r: Remotes, t: nat, tick: nat, deadline: int)
    ensures Late(r, t, tick, deadline) ==> exists k: nat :: k >= t && r.clock(k) >= deadline
  {}

  /** One pass over the pending builds. */
  method PollStops(r: Remotes, n: nat, pending: set<nat>) returns (answer: Answer<set<nat>>, next: nat)
    ensures next >= n
    ensures answer.Done? ==> answer.value <= pending && forall id <- pending :: id in answer.value || SeenStopped(r, n, next, id)
    ensures answer.Done? ==> forall id <- answer.value :: SeenUnstopped(r, n, next, id)
    ensures answer.Bad? ==> StopBroken(r, n, next, answer.fault)
  {
    next := n;
    var left, still := pending, pending;
    while left != {}
      invariant next >= n && left <= still <= pending
      invariant forall id <- pending :: id in still || SeenStopped(r, n, next, id)
      invariant forall id <- still :: id in left || SeenUnstopped(r, n, next, id)
      decreases left
    {
      var id :| id in left;
      left := left - {id};
      var build := r.builds(next, id);
      next := next + 1;
      assert n <= next - 1 < next && r.builds(next - 1, id) == build;
      if build.None? { assert StopBreaks(r.builds(next - 1, id), RequestFailed); return Bad(RequestFailed), next; }
      if build.value.transition != Stop {
        assert StopBreaks(r.builds(next - 1, id), UnexpectedTransition);
        return Bad(UnexpectedTransition), next;
      }
      if build.value.status == Stopped {
        still := still - {id};
      } else if StopFailed(build.value.status) {
        assert StopBreaks(r.builds(next - 1, id), BuildFailed);
        return Bad(BuildFailed), next;
      }
    }
    answer := Done(still);
  }

  /** `_wait_workspace_builds`: it ends by the deadline and returns only when every build was seen stopped. */
  method WaitStops(r: Remotes, n: nat, t: nat, deadline: int, pending: set<nat>) returns (answer: Answer<()>, next: nat, tick: nat)
    requires Removal.Ticks(r.clock)
    ensures next >= n && tick >= t
    ensures answer.Done? ==> forall id <- pending :: SeenStopped(r, n, next, id)
    ensures answer.Bad? ==> (answer.fault == TimedOut && Late(r, t, tick, deadline)) || StopBroken(r, n, next, answer.fault)
  {
    next, tick := n, t;
    var left := pending;
    while left != {}
      invariant next >= n && tick >= t && forall id <- pending :: id in left || SeenStopped(r, n, next, id)
      decreases deadline - r.clock(tick)
    {
      if r.clock(tick) >= deadline { return Bad(TimedOut), next, tick + 1; }
      assert r.clock(tick) < r.clock(tick + 1);
      tick := tick + 1;
      var stopped, after := PollStops(r, next, left);
      if stopped.Bad? { StopBrokenLater(r, next, after, n, after, stopped.fault); return Bad(stopped.fault), after, tick; }
      forall id | id in pending && id !in stopped.value ensures SeenStopped(r, n, after, id) {
        if id in left { StoppedLater(r, n, after, next, after, id); } else { StoppedLater(r, n, after, n, next, id); }
      }
      left, next := stopped.value, after;
    }
    answer := Done(());
  }

  lemma StoppedLater(r: Remotes, from: nat, to: nat, from': nat, to': nat, id: nat)
    requires from <= from' <= to' <= to
    ensures SeenStopped(r, from', to', id) ==> SeenStopped(r, from, to, id)
  {}

  /** The loop over the active workspaces of one scan: a stopping one is awaited, any other gets one stop
      build. */
  method SubmitStops(r: Remotes, n: nat, ws: seq<Remote>) returns (answer: Answer<set<nat>>, next: nat)
    ensures next >= n
    ensures answer.Done? ==> next == n + |StopTargets(ws)|
    ensures answer.Done? ==> forall w <- ws :: w.status == BuildStatus.Stopping ==> w.build in answer.value
    ensures answer.Done? ==> forall j :: 0 <= j < |StopTargets(ws)| ==> StopAnswered(r, n + j, StopTargets(ws)[j], answer.value)
    ensures answer.Done? ==> forall b <- answer.value :: AwaitedFor(r, n, next, ws, b)
    ensures answer.Bad? ==> StopBroken(r, n, next, answer.fault)
  {
    next := n;
    var pending: set<nat> := {};
    var k := 0;
    assert ws[..0] == [];
    while k < |ws|
      invariant k <= |ws| && next == n + |StopTargets(ws[..k])|
      invariant forall w <- ws[..k] :: w.status == BuildStatus.Stopping ==> w.build in pending
      invariant forall b <- pending :: AwaitedFor(r, n, next, ws, b)
      invariant forall j :: 0 <= j < |StopTargets(ws[..k])| ==> StopAnswered(r, n + j, StopTargets(ws[..k])[j], pending)
    {
      var w := ws[k];
      TargetsNext(ws, k);
      ghost var targets := StopTargets(ws[..k]);
      ghost var before, earlier := next, pending;
      if w.status == BuildStatus.Stopping {
        pending := pending + {w.build};
        assert AwaitedFor(r, n, next, ws, w.build) by { assert w in ws; }
      } else {
        var build := r.submissions(next, w.id);
        next := next + 1;
        if build.None? { assert StopBreaks(r.submissions(next - 1, w.id), RequestFailed); return Bad(RequestFailed), next; }
        if build.value.transition != Stop {
          assert StopBreaks(r.submissions(next - 1, w.id), UnexpectedTransition);
          return Bad(UnexpectedTransition), next;
        }
        if build.value.status != Stopped {
          pending := pending + {build.value.id};
          assert NewlySubmitted(r, next - 1, w.id, build.value.id);
          assert AwaitedFor(r, n, next, ws, build.value.id);
        }
        forall b | b in earlier ensures AwaitedFor(r, n, next, ws, b) { AwaitedLater(r, n, before, next, ws, b); }
        assert StopAnswered(r, n + |targets|, w.id, pending);
      }
      k := k + 1;
    }
    assert ws[..|ws|] == ws;
    answer := Done(pending);
  }

  /** A build is awaited only for a workspace that was stopping, or for a stop that was submitted just now. */
  ghost predicate AwaitedFor(r: Remotes, from: nat, to: nat, ws: seq<Remote>, b: nat) {
    || (exists w <- ws :: w.status == BuildStatus.Stopping && w.build == b)
    || (exists m: nat, id: nat :: from <= m < to && NewlySubmitted(r, m, id, b))
  }

  predicate NewlySubmitted(r: Remotes, m: nat, id: nat, b: nat) {
    r.submissions(m, id).Some? && r.submissions(m, id).value.id == b && r.submissions(m, id).value.status != Stopped
  }

  lemma AwaitedLater(r: Remotes, from: nat, to': nat, to: nat, ws: seq<Remote>, b: nat)
    requires to' <= to && AwaitedFor(r, from, to', ws, b)
    ensures AwaitedFor(r, from, to, ws, b)
  {}

  function StopTargets(ws: seq<Remote>): seq<nat> {
    if ws == [] then []
    else StopTargets(ws[..|ws| - 1]) + if ws[|ws| - 1].status == BuildStatus.Stopping then [] else [ws[|ws| - 1].id]
  }

  lemma TargetsNext(ws: seq<Remote>, k: nat)
    requires k < |ws|
    ensures StopTargets(ws[..k + 1]) == StopTargets(ws[..k]) + if ws[k].status == BuildStatus.Stopping then [] else [ws[k].id]
    ensures forall w :: w in ws[..k + 1] <==> w in ws[..k] || w == ws[k]
  {
    assert ws[..k + 1][..k] == ws[..k];
  }

  /** The submission answered a stop build, which is awaited unless it already stopped. */
  predicate StopAnswered(r: Remotes, m: nat, id: nat, pending: set<nat>) {
    && r.submissions(m, id).Some? && r.submissions(m, id).value.transition == Stop
    && (r.submissions(m, id).value.status != Stopped ==> r.submissions(m, id).value.id in pending)
  }

  /** The workspace was listed, and its stop was awaited or submitted and then awaited unless it had
      already finished. */
  ghost predicate Stopped1(r: Remotes, from: nat, to: nat, id: nat) {
    exists w: Remote :: w.id == id && Listed(r, from, to, w) && Halted(r, from, to, w)
  }

  ghost predicate Halted(r: Remotes, from: nat, to: nat, w: Remote) {
    if w.status == BuildStatus.Stopping then SeenStopped(r, from, to, w.build)
    else exists q: nat :: from <= q < to && Halting(r, from, to, q, w.id)
  }

  ghost predicate Halting(r: Remotes, from: nat, to: nat, q: nat, id: nat) {
    && r.submissions(q, id).Some? && r.submissions(q, id).value.transition == Stop
    && (r.submissions(q, id).value.status != Stopped ==> SeenStopped(r, from, to, r.submissions(q, id).value.id))
  }

  lemma HaltedLater(r: Remotes, from': nat, to': nat, from: nat, to: nat, w: Remote)
    requires from <= from' <= to' <= to && Halted(r, from', to', w)
    ensures Halted(r, from, to, w)
  {
    StoppedLater(r, from, to, from', to', w.build);
    if w.status != BuildStatus.Stopping {
      var q: nat :| from' <= q < to' && Halting(r, from', to', q, w.id);
      StoppedLater(r, from, to, from', to', r.submissions(q, w.id).value.id);
      assert Halting(r, from, to, q, w.id);
    }
  }

  lemma Stopped1Later(r: Remotes, from: nat, to': nat, to: nat, id: nat)
    requires from <= to' <= to && Stopped1(r, from, to', id)
    ensures Stopped1(r, from, to, id)
  {
    var w: Remote :| w.id == id && Listed(r, from, to', w) && Halted(r, from, to', w);
    ListedLater(r, from, to', from, to, w);
    HaltedLater(r, from, to', from, to, w);
  }

  lemma {:induction false} TargetsHave(ws: seq<Remote>, w: Remote) returns (j: nat)
    requires w in ws && w.status != BuildStatus.Stopping
    ensures j < |StopTargets(ws)| && StopTargets(ws)[j] == w.id
  {
    var last := |ws| - 1;
    if ws[last] == w {
      j := |StopTargets(ws[..last])|;
    } else {
      j := TargetsHave(ws[..last], w);
    }
  }

  /** The submissions and the wait after them halt every workspace of one scan. */
  lemma AllHalt(r: Remotes, n: nat, mid: nat, to: nat, ws: seq<Remote>, pending: set<nat>)
    requires mid == n + |StopTargets(ws)| && mid <= to
    requires forall w <- ws :: w.status == BuildStatus.Stopping ==> w.build in pending
    requires forall j :: 0 <= j < |StopTargets(ws)| ==> StopAnswered(r, n + j, StopTargets(ws)[j], pending)
    requires forall id <- pending :: SeenStopped(r, mid, to, id)
    ensures forall w <- ws :: Halted(r, n, to, w)
  {
    forall w | w in ws ensures Halted(r, n, to, w) {
      if w.status == BuildStatus.Stopping {
        StoppedLater(r, n, to, mid, to, w.build);
      } else {
        var j := TargetsHave(ws, w);
        assert StopAnswered(r, n + j, w.id, pending);
        StoppedLater(r, n, to, mid, to, r.submissions(n + j, w.id).value.id);
        assert Halting(r, n, to, n + j, w.id);
      }
    }
  }

  lemma NewlyStopped(r: Remotes, n: nat, from: nat, mid: nat, to: nat, ws: seq<Remote>)
    requires n <= from <= mid <= to
    requires forall w <- ws :: Listed(r, from, mid, w)
    requires forall w <- ws :: Halted(r, mid, to, w)
    ensures forall w <- ws :: Stopped1(r, n, to, w.id)
  {
    forall w | w in ws ensures Stopped1(r, n, to, w.id) {
      ListedLater(r, from, mid, n, to, w);
      HaltedLater(r, mid, to, n, to, w);
    }
  }

  /** `stop_active_workspaces`: it ends by the deadline, returns only after one scan has counted no running,
      no starting and no stopping workspace, and answers only workspaces that were listed and halted. */
  method StopActiveWorkspaces(r: Remotes, n: nat, t: nat, deadline: int, ghost bound: nat)
    returns (answer: Answer<seq<nat>>, next: nat)
    requires Removal.Ticks(r.clock) && Bounded(r, bound)
    ensures answer.Done? ==> exists m: nat :: n <= m <= next && NoneActive(r, m, next)
    ensures answer.Done? ==> forall id <- answer.value :: Stopped1(r, n, next, id)
    ensures answer.Bad? ==>
              || (answer.fault == TimedOut && exists k: nat :: k >= t && r.clock(k) >= deadline)
              || ListingBroken(r, n, next, answer.fault) || StopBroken(r, n, next, answer.fault)
  {
    hide Stopped1, Listed, Halted, SeenStopped, StopAnswered, Bounded, AwaitedFor, ListingBroken, StopBroken, Late;
    next := n;
    var tick := t;
    var stopped: seq<nat> := [];
    while true
      invariant next >= n && tick >= t
      invariant forall id <- stopped :: Stopped1(r, n, next, id)
      decreases deadline - r.clock(tick)
    {
      if r.clock(tick) >= deadline { return Bad(TimedOut), next; }
      assert r.clock(tick) < r.clock(tick + 1);
      ghost var from := next;
      var after := tick + 1;
      var active;
      active, next := ActiveWorkspaces(r, next, bound);
      if active.Bad? { ListingBrokenLater(r, from, next, n, next, active.fault); return Bad(active.fault), next; }
      if active.value == [] {
        forall id | id in stopped ensures Stopped1(r, n, next, id) { Stopped1Later(r, n, from, next, id); }
        assert NoneActive(r, from, next);
        return Done(stopped), next;
      }
      ghost var listed := next;
      var pending;
      pending, next := SubmitStops(r, next, active.value);
      if pending.Bad? { StopBrokenLater(r, listed, next, n, next, pending.fault); return Bad(pending.fault), next; }
      ghost var earlier := stopped;
      var ids := seq(|active.value|, k requires 0 <= k < |active.value| => active.value[k].id);
      stopped := stopped + ids;
      ghost var submitted := next;
      var waited, next', tick' := WaitStops(r, next, after, deadline, pending.value);
      next := next';
      if waited.Bad? {
        LateMeans(r, after, tick', deadline);
        if StopBroken(r, submitted, next, waited.fault) { StopBrokenLater(r, submitted, next, n, next, waited.fault); }
        return Bad(waited.fault), next;
      }
      Removal.ClockRuns(r.clock, after, tick' - after);
      AllHalt(r, listed, submitted, next, active.value, pending.value);
      NewlyStopped(r, n, from, listed, next, active.value);
      forall id | id in stopped ensures Stopped1(r, n, next, id) {
        if id in earlier { Stopped1Later(r, n, from, next, id); }
        else { var k :| 0 <= k < |ids| && ids[k] == id; assert active.value[k] in active.value; }
      }
      tick := tick';
    }
  }
}
