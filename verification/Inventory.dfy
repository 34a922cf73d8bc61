/** Strict pagination over the workspaces of one Coder instance. `ask(n, offset)` is the answer of the
    n-th remote request; an answer that fails the client's own checks is None. */
module Inventory {
  import opened Records

  const PAGE_SIZE: nat := 100

  datatype BuildStatus =
    | Queued | Starting | Started | Stopping | Stopped | Failed | Canceling | Canceled | Deleting | Deleted

  datatype Transition = Start | Stop | Delete

  datatype Remote = Remote(id: nat, template: Option<nat>, status: BuildStatus, transition: Transition, build: nat)

  datatype Page = Page(items: seq<Remote>, count: nat)

  datatype Fault =
    | RequestFailed | CountChanged | Duplicate | NotAdvancing | Incomplete | TimedOut
    | BuildFailed | UnexpectedTransition | NoTemplates

  datatype Answer<+T> = Done(value: T) | Bad(fault: Fault)

  type Listing = (nat, nat) -> Option<Page>

  function Min(a: int, b: int): int { if a < b then a else b }
  function Max(a: int, b: int): int { if a < b then b else a }

  /** The client rejects a page whose length does not follow from its count. */
  predicate PageOk(page: Page, offset: nat) {
    |page.items| == Min(PAGE_SIZE, Max(page.count - offset, 0))
  }

  /** A page holds what is left of the count, at most a hundred workspaces. */
  lemma PageLength(page: Page, offset: nat)
    ensures PageOk(page, offset) <==>
              |page.items| == if page.count <= offset then 0 else if page.count - offset < 100 then page.count - offset else 100
  {}

  function Ask(ask: Listing, n: nat, offset: nat): Option<Page> {
    match ask(n, offset)
    case None => None
    case Some(page) => if PageOk(page, offset) then Some(page) else None
  }

  /** Sorted by identifier, each identifier once. */
  predicate Ascending(ws: seq<Remote>) {
    forall i, j :: 0 <= i < j < |ws| ==> ws[i].id < ws[j].id
  }

  predicate Distinct(ws: seq<Remote>) {
    forall i, j :: 0 <= i < j < |ws| ==> ws[i].id != ws[j].id
  }

  predicate IsLeast(m: nat, ids: set<nat>) {
    m in ids && forall i <- ids :: m <= i
  }

  lemma {:induction false} LeastExists(ids: set<nat>)
    requires ids != {}
    ensures exists m :: IsLeast(m, ids)
    decreases ids
  {
    var i :| i in ids;
    var rest := ids - {i};
    assert forall j <- ids :: j == i || j in rest;
    if rest == {} {
      assert IsLeast(i, ids);
    } else {
      LeastExists(rest);
      var m :| IsLeast(m, rest);
      assert IsLeast(if m <= i then m else i, ids);
    }
  }

  /** The list shows exactly the values of the dictionary, in the order of their keys. */
  ghost predicate Shows(ws: seq<Remote>, found: map<nat, Remote>) {
    && Ascending(ws) && |ws| == |found|
    && forall w :: w in ws <==> w.id in found && found[w.id] == w
  }

  method InOrder(found: map<nat, Remote>) returns (ws: seq<Remote>)
    requires forall k <- found :: found[k].id == k
    ensures Shows(ws, found)
  {
    ws := [];
    var left := found.Keys;
    while left != {}
      invariant left <= found.Keys && |ws| + |left| == |found.Keys|
      invariant Ascending(ws) && forall k, w | k in left && w in ws :: w.id < k
      invariant forall w :: w in ws <==> w.id in found && w.id !in left && found[w.id] == w
      decreases left
    {
      LeastExists(left);
      var least :| IsLeast(least, left);
      ws := ws + [found[least]];
      left := left - {least};
    }
    assert |found.Keys| == |found|;
  }

  // ---------- one scan ----------

  /** The items of one page, unless one of them is already known. */
  function AddAll(found: map<nat, Remote>, items: seq<Remote>): Option<map<nat, Remote>>
    decreases |items|
  {
    if items == [] then Some(found)
    else if items[0].id in found then None
    else AddAll(found[items[0].id := items[0]], items[1..])
  }

  /** What remains of a scan that has reached `offset`, and the number of the request after it. */
  function Scan(ask: Listing, n: nat, offset: nat, expected: Option<nat>, found: map<nat, Remote>): (Answer<map<nat, Remote>>, nat)
    decreases if expected.None? then 1 else 0, if expected.Some? && expected.value > offset then expected.value - offset else 0
  {
    match Ask(ask, n, offset)
    case None => (Bad(RequestFailed), n + 1)
    case Some(page) =>
      if expected.Some? && page.count != expected.value then (Bad(CountChanged), n + 1)
      else match AddAll(found, page.items)
        case None => (Bad(Duplicate), n + 1)
        case Some(found') =>
          var offset' := offset + |page.items|;
          if offset' >= page.count then (if page.count != |found'| then Bad(Incomplete) else Done(found'), n + 1)
          else if page.items == [] then (Bad(NotAdvancing), n + 1)
          else Scan(ask, n + 1, offset', Some(page.count), found')
  }

  method AddPage(found: map<nat, Remote>, items: seq<Remote>) returns (added: Option<map<nat, Remote>>)
    ensures added == AddAll(found, items)
  {
    var all: map<nat, Remote> := found;
    var k := 0;
    assert items[0..] == items;
    while k < |items|
      invariant k <= |items| && AddAll(all, items[k..]) == AddAll(found, items)
    {
      assert items[k..][0] == items[k] && items[k..][1..] == items[k + 1..];
      if items[k].id in all { return None; }
      all := all[items[k].id := items[k]];
      k := k + 1;
    }
    added := Some(all);
  }

  /** `_all_workspaces`. */
  method AllWorkspaces(ask: Listing, n: nat) returns (answer: Answer<seq<Remote>>, next: nat)
    ensures var (scanned, after) := Scan(ask, n, 0, None, map[]);
            && next == after
            && match scanned case Bad(fault) => answer == Bad(fault) case Done(found) => answer.Done? && Shows(answer.value, found)
  {
    next := n;
    var found: map<nat, Remote> := map[];
    var expected: Option<nat> := None;
    var offset: nat := 0;
    while true
      invariant Scan(ask, next, offset, expected, found) == Scan(ask, n, 0, None, map[])
      invariant forall k <- found :: found[k].id == k
      decreases if expected.None? then 1 else 0, if expected.Some? && expected.value > offset then expected.value - offset else 0
    {
      var page := Ask(ask, next, offset);
      next := next + 1;
      if page.None? { return Bad(RequestFailed), next; }
      if expected.None? {
        expected := Some(page.value.count);
      } else if page.value.count != expected.value {
        return Bad(CountChanged), next;
      }
      var added := AddPage(found, page.value.items);
      if added.None? { return Bad(Duplicate), next; }
      AddedKeys(found, page.value.items);
      found := added.value;
      offset := offset + |page.value.items|;
      if offset >= page.value.count { break; }
      if page.value.items == [] { return Bad(NotAdvancing), next; }
    }
    if expected.value != |found| { return Bad(Incomplete), next; }
    var ws := InOrder(found);
    answer := Done(ws);
  }

  lemma {:induction false} AddedKeys(found: map<nat, Remote>, items: seq<Remote>)
    requires forall k <- found :: found[k].id == k
    ensures AddAll(found, items).Some? ==>
              var found' := AddAll(found, items).value;
              && (forall k <- found' :: found'[k].id == k) && |found'| == |found| + |items|
              && (forall k <- found' :: (k in found && found'[k] == found[k]) || found'[k] in items)
    decreases |items|
  {
    if items != [] && items[0].id !in found { AddedKeys(found[items[0].id := items[0]], items[1..]); }
  }

  // ---------- what a scan returns ----------

  /** A scan whose pages pass the client's check never meets the branch that reports no progress. */
  lemma {:induction false} ScanAdvances(ask: Listing, n: nat, offset: nat, expected: Option<nat>, found: map<nat, Remote>)
    ensures Scan(ask, n, offset, expected, found).0 != Bad(NotAdvancing)
    decreases if expected.None? then 1 else 0, if expected.Some? && expected.value > offset then expected.value - offset else 0
  {
    var page := Ask(ask, n, offset);
    if page.Some? && !(expected.Some? && page.value.count != expected.value) {
      var added := AddAll(found, page.value.items);
      var offset' := offset + |page.value.items|;
      if added.Some? && offset' < page.value.count && page.value.items != [] {
        ScanAdvances(ask, n + 1, offset', Some(page.value.count), added.value);
      }
    }
  }

  predicate Answered(ask: Listing, m: nat, offset: nat, w: Remote) {
    Ask(ask, m, offset).Some? && w in Ask(ask, m, offset).value.items
  }

  /** A finished scan holds exactly the counted number of workspaces, each answered during the scan. */
  lemma {:induction false} ScanComplete(ask: Listing, n: nat, offset: nat, expected: Option<nat>, found: map<nat, Remote>)
    requires |found| == offset && forall k <- found :: found[k].id == k
    ensures var (answer, next) := Scan(ask, n, offset, expected, found);
            && next > n
            && (answer.Done? ==>
                  && Ask(ask, n, offset).Some? && |answer.value| == Ask(ask, n, offset).value.count
                  && (expected.Some? ==> |answer.value| == expected.value)
                  && (forall k <- answer.value :: answer.value[k].id == k)
                  && (forall k <- answer.value ::
                        (k in found && answer.value[k] == found[k])
                        || exists m, o :: n <= m < next && Answered(ask, m, o, answer.value[k])))
    decreases if expected.None? then 1 else 0, if expected.Some? && expected.value > offset then expected.value - offset else 0
  {
    var page := Ask(ask, n, offset);
    if page.Some? && !(expected.Some? && page.value.count != expected.value) {
      AddedKeys(found, page.value.items);
      var added := AddAll(found, page.value.items);
      var offset' := offset + |page.value.items|;
      if added.Some? && offset' < page.value.count && page.value.items != [] {
        ScanComplete(ask, n + 1, offset', Some(page.value.count), added.value);
      }
      if added.Some? {
        forall k | k in added.value && !(k in found && added.value[k] == found[k]) ensures Answered(ask, n, offset, added.value[k]) {}
      }
    }
  }

  /** An empty answer is one request, which counted no workspace. */
  lemma EmptyScan(ask: Listing, n: nat)
    requires Scan(ask, n, 0, None, map[]).0 == Done(map[])
    ensures Ask(ask, n, 0) == Some(Page([], 0)) && Scan(ask, n, 0, None, map[]).1 == n + 1
  {
    ScanComplete(ask, n, 0, None, map[]);
  }

  // ---------- a stable server ----------

  function ByIds(ws: seq<Remote>): map<nat, Remote> {
    if ws == [] then map[] else ByIds(ws[..|ws| - 1])[ws[|ws| - 1].id := ws[|ws| - 1]]
  }

  /** The server answers the same inventory, page by page, during the whole scan. */
  ghost predicate Stable(ask: Listing, n: nat, inventory: seq<Remote>) {
    && Distinct(inventory)
    && forall m: nat, offset: nat :: m >= n && offset <= |inventory| ==>
         ask(m, offset) == Some(Page(inventory[offset..Min(offset + PAGE_SIZE, |inventory|)], |inventory|))
  }

  lemma {:induction false} IdsOf(ws: seq<Remote>)
    ensures forall k <- ByIds(ws) :: ByIds(ws)[k].id == k && ByIds(ws)[k] in ws
    ensures forall w <- ws :: w.id in ByIds(ws)
  {
    if ws != [] {
      var before, last := ws[..|ws| - 1], ws[|ws| - 1];
      IdsOf(before);
      assert forall w <- ws :: w == last || w in before;
    }
  }

  lemma {:induction false} IdsOfDistinct(ws: seq<Remote>)
    requires Distinct(ws)
    ensures |ByIds(ws)| == |ws| && forall w <- ws :: w.id in ByIds(ws) && ByIds(ws)[w.id] == w
  {
    if ws != [] {
      var before, last := ws[..|ws| - 1], ws[|ws| - 1];
      IdsOfDistinct(before);
      IdsOf(before);
      assert forall w <- before :: w.id != last.id by {
        forall w | w in before ensures w.id != last.id { var j :| 0 <= j < |before| && before[j] == w; assert ws[j] == w; }
      }
      assert forall w <- ws :: w == last || w in before;
    }
  }

  lemma {:induction false} AddSlice(inventory: seq<Remote>, a: nat, b: nat)
    requires a <= b <= |inventory| && Distinct(inventory)
    ensures AddAll(ByIds(inventory[..a]), inventory[a..b]) == Some(ByIds(inventory[..b]))
    decreases b - a
  {
    if a < b {
      IdsOf(inventory[..a]);
      assert forall w <- inventory[..a] :: w.id != inventory[a].id;
      assert inventory[..a + 1][..a] == inventory[..a];
      assert inventory[a..b][1..] == inventory[a + 1..b];
      AddSlice(inventory, a + 1, b);
    }
  }

  /** A scan fails only for a request without a valid answer, for two answers that count differently, or for a
      workspace that was answered twice. */
  ghost predicate Explained(ask: Listing, n: nat, offset: nat, expected: Option<nat>, found: map<nat, Remote>, next: nat, fault: Fault) {
    || (fault == RequestFailed && exists m: nat, o: nat :: n <= m < next && Ask(ask, m, o).None?)
    || (fault == CountChanged && exists m: nat, o: nat :: n <= m < next && Recounts(ask, n, offset, expected, m, o))
    || (fault == Duplicate && exists m: nat, o: nat, i: nat :: n <= m < next && Repeated(ask, n, found, m, o, i))
  }

  lemma {:induction false} ScanFails(ask: Listing, n: nat, offset: nat, expected: Option<nat>, found: map<nat, Remote>)
    requires |found| == offset && (forall k <- found :: found[k].id == k) && (expected.Some? ==> offset <= expected.value)
    requires expected.None? ==> offset == 0
    ensures var (answer, next) := Scan(ask, n, offset, expected, found);
            answer.Bad? ==> Explained(ask, n, offset, expected, found, next, answer.fault)
    decreases if expected.None? then 1 else 0, if expected.Some? && expected.value > offset then expected.value - offset else 0
  {
    ScanSteps(ask, n, offset, expected, found);
    hide Explained, AddAll, Ask, Scan, Recounts;
    var page := Ask(ask, n, offset);
    if page.Some? && (expected.Some? ==> page.value.count == expected.value) && AddAll(found, page.value.items).Some? {
      var added := AddAll(found, page.value.items).value;
      var offset' := offset + |page.value.items|;
      if offset' < page.value.count && page.value.items != [] {
        ScanFails(ask, n + 1, offset', Some(page.value.count), added);
        var (answer, next) := Scan(ask, n + 1, offset', Some(page.value.count), added);
        if answer.Bad? { EarlierExplained(ask, n, offset, expected, found, next, answer.fault); }
      }
    } else {
      FirstFails(ask, n, offset, expected, found);
    }
  }

  /** One answer of a scan that goes well: it never overshoots, so the scan ends with what was counted or goes
      on. */
  lemma ScanSteps(ask: Listing, n: nat, offset: nat, expected: Option<nat>, found: map<nat, Remote>)
    requires |found| == offset && (forall k <- found :: found[k].id == k)
    requires (expected.Some? ==> offset <= expected.value) && (expected.None? ==> offset == 0)
    ensures var page := Ask(ask, n, offset);
            page.Some? && (expected.Some? ==> page.value.count == expected.value) && AddAll(found, page.value.items).Some? ==>
              var added, offset' := AddAll(found, page.value.items).value, offset + |page.value.items|;
              && (forall k <- added :: added[k].id == k) && |added| == offset' <= page.value.count
              && (offset' < page.value.count ==>
                    && page.value.items != []
                    && Scan(ask, n, offset, expected, found) == Scan(ask, n + 1, offset', Some(page.value.count), added))
              && (offset' == page.value.count ==> Scan(ask, n, offset, expected, found).0.Done?)
  {
    var page := Ask(ask, n, offset);
    if page.Some? { AddedKeys(found, page.value.items); }
    hide AddAll;
  }

  lemma FirstFails(ask: Listing, n: nat, offset: nat, expected: Option<nat>, found: map<nat, Remote>)
    requires var page := Ask(ask, n, offset);
             page.Some? && (expected.Some? ==> page.value.count == expected.value) ==> AddAll(found, page.value.items).None?
    ensures var (answer, next) := Scan(ask, n, offset, expected, found);
            answer.Bad? && Explained(ask, n, offset, expected, found, next, answer.fault)
  {
    hide Ask, AddAll, Repeated;
    var page := Ask(ask, n, offset);
    if page.Some? {
      if expected.Some? && page.value.count != expected.value {
        assert Recounts(ask, n, offset, expected, n, offset);
      } else {
        AnsweredTwice(ask, n, offset, expected, found);
      }
    }
  }

  lemma AnsweredTwice(ask: Listing, n: nat, offset: nat, expected: Option<nat>, found: map<nat, Remote>)
    requires Ask(ask, n, offset).Some? && AddAll(found, Ask(ask, n, offset).value.items).None?
    ensures Explained(ask, n, offset, expected, found, n + 1, Duplicate)
  {
    var items := Ask(ask, n, offset).value.items;
    var i := FirstRepeated(found, items);
    hide Ask, AddAll, Recounts;
    assert Shown(ask, n, offset, i, items[i].id);
    if items[i].id !in found {
      var j :| 0 <= j < i && items[j].id == items[i].id;
      assert Shown(ask, n, offset, j, items[i].id);
    }
    assert Repeated(ask, n, found, n, offset, i);
  }

  /** What explains the failure of the rest of a scan explains the failure of the whole scan. */
  lemma EarlierExplained(ask: Listing, n: nat, offset: nat, expected: Option<nat>, found: map<nat, Remote>, next: nat, fault: Fault)
    requires Ask(ask, n, offset).Some? && AddAll(found, Ask(ask, n, offset).value.items).Some?
    requires forall k <- found :: found[k].id == k
    requires var page := Ask(ask, n, offset).value;
             && (expected.Some? ==> page.count == expected.value)
             && Explained(ask, n + 1, offset + |page.items|, Some(page.count), AddAll(found, page.items).value, next, fault)
    ensures Explained(ask, n, offset, expected, found, next, fault)
  {
    hide Ask, AddAll, Repeated;
    var page := Ask(ask, n, offset).value;
    match fault
    case CountChanged =>
      var m: nat, o: nat :| n + 1 <= m < next && Recounts(ask, n + 1, offset + |page.items|, Some(page.count), m, o);
      assert Recounts(ask, n, offset, expected, m, o);
    case Duplicate =>
      var m: nat, o: nat, i: nat :| n + 1 <= m < next && Repeated(ask, n + 1, AddAll(found, page.items).value, m, o, i);
      EarlierRepeated(ask, n, offset, found, m, o, i);
    case _ =>
  }

  predicate Shown(ask: Listing, m: nat, o: nat, i: nat, id: nat) {
    Ask(ask, m, o).Some? && i < |Ask(ask, m, o).value.items| && Ask(ask, m, o).value.items[i].id == id
  }

  /** The workspace at this place was known, or stands at another place of this or an earlier answer. */
  ghost predicate Repeated(ask: Listing, n: nat, found: map<nat, Remote>, m: nat, o: nat, i: nat) {
    && Ask(ask, m, o).Some? && i < |Ask(ask, m, o).value.items|
    && var id := Ask(ask, m, o).value.items[i].id;
       id in found || exists m': nat, o': nat, j: nat :: n <= m' <= m && Shown(ask, m', o', j, id) && (m' < m || j < i)
  }

  lemma {:induction false} FirstRepeated(found: map<nat, Remote>, items: seq<Remote>) returns (i: nat)
    requires AddAll(found, items).None?
    ensures i < |items| && (items[i].id in found || exists j :: 0 <= j < i && items[j].id == items[i].id)
    decreases |items|
  {
    if items[0].id in found {
      i := 0;
    } else {
      i := FirstRepeated(found[items[0].id := items[0]], items[1..]);
      var rest := items[1..];
      if rest[i].id in found {
      } else if rest[i].id == items[0].id {
        assert items[0].id == items[i + 1].id;
      } else {
        var j :| 0 <= j < i && rest[j].id == rest[i].id;
        assert items[j + 1].id == items[i + 1].id;
      }
      i := i + 1;
    }
  }

  /** What the rest of a scan finds repeated is repeated in the whole scan. */
  lemma EarlierRepeated(ask: Listing, n: nat, offset: nat, found: map<nat, Remote>, m: nat, o: nat, i: nat)
    requires Ask(ask, n, offset).Some? && AddAll(found, Ask(ask, n, offset).value.items).Some? && n < m
    requires forall k <- found :: found[k].id == k
    requires Repeated(ask, n + 1, AddAll(found, Ask(ask, n, offset).value.items).value, m, o, i)
    ensures Repeated(ask, n, found, m, o, i)
  {
    var items := Ask(ask, n, offset).value.items;
    var found' := AddAll(found, items).value;
    var id := Ask(ask, m, o).value.items[i].id;
    AddedKeys(found, items);
    if id in found' {
      if id !in found {
        var j :| 0 <= j < |items| && items[j] == found'[id];
        assert Shown(ask, n, offset, j, id);
      }
    } else {
      var m': nat, o': nat, j: nat :| n + 1 <= m' <= m && Shown(ask, m', o', j, id) && (m' < m || j < i);
    }
  }

  /** The answer counts otherwise than the scan expects, or than its first answer. */
  predicate Recounts(ask: Listing, n: nat, offset: nat, expected: Option<nat>, m: nat, o: nat) {
    && Ask(ask, m, o).Some?
    && (if expected.Some? then Ask(ask, m, o).value.count != expected.value
        else Ask(ask, n, offset).Some? && Ask(ask, m, o).value.count != Ask(ask, n, offset).value.count)
  }

  /** Against a stable server the scan returns the inventory. */
  lemma {:induction false} StableScan(ask: Listing, start: nat, n: nat, offset: nat, expected: Option<nat>, inventory: seq<Remote>)
    requires Stable(ask, start, inventory) && n >= start && offset <= |inventory| && (expected.Some? ==> expected.value == |inventory|)
    requires offset == |inventory| ==> inventory == []
    ensures Scan(ask, n, offset, expected, ByIds(inventory[..offset])).0 == Done(ByIds(inventory))
    decreases |inventory| - offset
  {
    var last := Min(offset + PAGE_SIZE, |inventory|);
    assert Ask(ask, n, offset) == Some(Page(inventory[offset..last], |inventory|));
    AddSlice(inventory, offset, last);
    IdsOfDistinct(inventory);
    assert inventory[..|inventory|] == inventory;
    if last < |inventory| { StableScan(ask, start, n + 1, last, Some(|inventory|), inventory); }
  }
}
