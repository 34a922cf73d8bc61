/** The managed database pool: reservation of a slot on the least utilised database. Utilisation
    ratios are compared exactly, by cross multiplication; `rank` is the position of a database in
    the order of case-folded name and identifier that breaks ties. */
module Placement {
  import opened Records
  import opened Store

  type Pool = map<nat, Database>
  type Allocations = map<nat, nat>

  function Users(allocations: Allocations, d: nat): set<nat> {
    set i | i in allocations && allocations[i] == d
  }

  function Count(allocations: Allocations, d: nat): nat {
    |Users(allocations, d)|
  }

  predicate Free(pool: Pool, allocations: Allocations, d: nat) {
    d in pool && Count(allocations, d) < pool[d].capacity
  }

  /** Database d is tried before database e. */
  predicate Before(pool: Pool, allocations: Allocations, d: nat, e: nat)
    requires d in pool && e in pool
  {
    var x, y := Count(allocations, d) * pool[e].capacity, Count(allocations, e) * pool[d].capacity;
    x < y || (x == y && pool[d].rank < pool[e].rank)
  }

  predicate IsChoice(pool: Pool, allocations: Allocations, d: nat) {
    Free(pool, allocations, d)
    && forall e <- pool :: Free(pool, allocations, e) && e != d ==> Before(pool, allocations, d, e)
  }

  predicate PoolOk(pool: Pool) {
    && (forall d <- pool :: pool[d].capacity > 0)
    && (forall d, e | d in pool && e in pool :: pool[d].rank == pool[e].rank ==> d == e)
  }

  ghost function Place(pool: Pool, allocations: Allocations): Option<nat> {
    if d: nat :| IsChoice(pool, allocations, d) then Some(d) else None
  }

  /** Cross-multiplied ratios are transitive. */
  lemma RatioTransitive(a: nat, ca: nat, b: nat, cb: nat, c: nat, cc: nat)
    requires ca > 0 && cb > 0 && cc > 0
    requires a * cb <= b * ca && b * cc <= c * cb
    ensures a * cc <= c * ca
    ensures a * cc == c * ca ==> a * cb == b * ca && b * cc == c * cb
  {
    calc <= {
      (a * cc) * cb;
      (a * cb) * cc;
      { MulMonotone(a * cb, b * ca, cc); }
      (b * ca) * cc;
      (b * cc) * ca;
      { MulMonotone(b * cc, c * cb, ca); }
      (c * cb) * ca;
      (c * ca) * cb;
    }
    if a * cc > c * ca { MulMonotone(c * ca + 1, a * cc, cb); }
    if a * cc == c * ca {
      assert (a * cb) * cc == (a * cc) * cb == (c * ca) * cb == (c * cb) * ca;
      assert (b * ca) * cc == (b * cc) * ca;
      if a * cb < b * ca { MulMonotone(a * cb + 1, b * ca, cc); }
      if b * cc < c * cb { MulMonotone(b * cc + 1, c * cb, ca); }
    }
  }

  lemma MulMonotone(x: int, y: int, z: nat)
    requires x <= y
    ensures x * z <= y * z
  {}

  lemma BeforeTransitive(pool: Pool, allocations: Allocations, d: nat, e: nat, f: nat)
    requires PoolOk(pool) && d in pool && e in pool && f in pool
    requires Before(pool, allocations, d, e) && Before(pool, allocations, e, f)
    ensures Before(pool, allocations, d, f)
  {
    RatioTransitive(Count(allocations, d), pool[d].capacity, Count(allocations, e), pool[e].capacity,
                    Count(allocations, f), pool[f].capacity);
  }

  /** `min` over the free databases, in the order the query returned them. */
  method Choose(pool: Pool, allocations: Allocations, rows: seq<nat>) returns (choice: Option<nat>)
    requires PoolOk(pool) && (forall d :: d in rows <==> d in pool)
    ensures choice == Place(pool, allocations)
    ensures choice.None? <==> forall d <- pool :: Count(allocations, d) >= pool[d].capacity
  {
    choice := None;
    var k := 0;
    while k < |rows|
      invariant k <= |rows|
      invariant choice.None? ==> forall j | 0 <= j < k :: !Free(pool, allocations, rows[j])
      invariant choice.Some? ==> Free(pool, allocations, choice.value)
      invariant choice.Some? ==> forall j | 0 <= j < k ::
                  Free(pool, allocations, rows[j]) && rows[j] != choice.value ==>
                    Before(pool, allocations, choice.value, rows[j])
    {
      var d := rows[k];
      if Free(pool, allocations, d) {
        if choice.None? {
          choice := Some(d);
        } else if Before(pool, allocations, d, choice.value) {
          forall j | 0 <= j < k && Free(pool, allocations, rows[j])
            ensures rows[j] == d || Before(pool, allocations, d, rows[j])
          {
            if rows[j] != choice.value && rows[j] != d { BeforeTransitive(pool, allocations, d, choice.value, rows[j]); }
          }
          choice := Some(d);
        }
      }
      k := k + 1;
    }
    if choice.Some? {
      assert IsChoice(pool, allocations, choice.value);
      ChoiceUnique(pool, allocations, choice.value, Place(pool, allocations).value);
    } else {
      forall d <- pool ensures !Free(pool, allocations, d) { var j :| 0 <= j < |rows| && rows[j] == d; }
    }
  }

  lemma ChoiceUnique(pool: Pool, allocations: Allocations, d: nat, e: nat)
    requires PoolOk(pool) && IsChoice(pool, allocations, d) && IsChoice(pool, allocations, e)
    ensures d == e
  {}

  /** Capacity is the only reason for refusing: a slot is found exactly when one is free. */
  lemma PlaceIffFree(pool: Pool, allocations: Allocations)
    requires PoolOk(pool)
    ensures Place(pool, allocations).Some? <==> exists d <- pool :: Free(pool, allocations, d)
  {
    if d :| d in pool && Free(pool, allocations, d) {
      var best := Best(pool, allocations, pool.Keys, d);
      assert IsChoice(pool, allocations, best);
    }
  }

  lemma {:induction false} Best(pool: Pool, allocations: Allocations, rows: set<nat>, d: nat) returns (best: nat)
    requires PoolOk(pool) && rows <= pool.Keys && d in rows && Free(pool, allocations, d)
    ensures best in rows && Free(pool, allocations, best)
    ensures forall e <- rows :: Free(pool, allocations, e) && e != best ==> Before(pool, allocations, best, e)
    decreases rows
  {
    var others := rows - {d};
    if e :| e in others && Free(pool, allocations, e) {
      best := Best(pool, allocations, others, e);
      if Before(pool, allocations, d, best) {
        forall f <- rows | Free(pool, allocations, f) && f != d ensures Before(pool, allocations, d, f) {
          if f != best { BeforeTransitive(pool, allocations, d, best, f); }
        }
        best := d;
      }
    } else {
      best := d;
    }
  }

  /** A free database of the smallest utilisation, and of the smallest position among those. */
  predicate Least(pool: Pool, allocations: Allocations, d: nat) {
    && d in pool && Count(allocations, d) < pool[d].capacity
    && forall e <- pool :: Count(allocations, e) < pool[e].capacity ==>
         && Count(allocations, d) * pool[e].capacity <= Count(allocations, e) * pool[d].capacity
         && (Count(allocations, d) * pool[e].capacity == Count(allocations, e) * pool[d].capacity ==> pool[d].rank <= pool[e].rank)
  }

  lemma PlaceIsLeast(pool: Pool, allocations: Allocations)
    requires PoolOk(pool) && Place(pool, allocations).Some?
    ensures Least(pool, allocations, Place(pool, allocations).value)
    ensures forall d :: Least(pool, allocations, d) ==> d == Place(pool, allocations).value
  {
    assert IsChoice(pool, allocations, Place(pool, allocations).value);
    hide Count;
  }

  // ---------- runs ----------

  predicate WithinCapacity(pool: Pool, allocations: Allocations) {
    && (forall i <- allocations :: allocations[i] in pool)
    && (forall d <- pool :: Count(allocations, d) <= pool[d].capacity)
  }

  lemma AllocateCounts(allocations: Allocations, i: nat, d: nat)
    requires i !in allocations
    ensures forall e :: Count(allocations[i := d], e) == Count(allocations, e) + if e == d then 1 else 0
  {
    forall e ensures Count(allocations[i := d], e) == Count(allocations, e) + if e == d then 1 else 0 {
      AllocatedUsers(allocations, i, d, e);
      hide Users;
    }
  }

  lemma AllocatedUsers(allocations: Allocations, i: nat, d: nat, e: nat)
    requires i !in allocations
    ensures i !in Users(allocations, e)
    ensures Users(allocations[i := d], e) == if e == d then Users(allocations, e) + {i} else Users(allocations, e)
  {
    if e == d { assert Users(allocations[i := d], e) == Users(allocations, e) + {i}; }
    else { assert Users(allocations[i := d], e) == Users(allocations, e); }
  }

  lemma ReleaseCounts(allocations: Allocations, i: nat)
    ensures forall e :: Count(allocations - {i}, e) <= Count(allocations, e)
  {
    forall e ensures Count(allocations - {i}, e) <= Count(allocations, e) {
      SubsetSize(Users(allocations - {i}, e), Users(allocations, e));
    }
  }

  lemma {:induction false} SubsetSize(a: set<nat>, b: set<nat>)
    requires a <= b
    ensures |a| <= |b|
  {
    assert b == a + (b - a);
  }

  /** Creations only: each identifier reserves a slot, or is refused. */
  ghost function Fill(pool: Pool, allocations: Allocations, ids: seq<nat>): Allocations
    decreases |ids|
  {
    if ids == [] then allocations
    else if ids[0] in allocations || Place(pool, allocations).None? then Fill(pool, allocations, ids[1..])
    else Fill(pool, allocations[ids[0] := Place(pool, allocations).value], ids[1..])
  }

  /** Database d, with a reservations, is within one reservation of database e's utilisation. */
  predicate Even(a: nat, capA: nat, b: nat, capB: nat) {
    a >= 1 ==> (a - 1) * capB <= b * capA
  }

  ghost predicate Balanced(pool: Pool, allocations: Allocations) {
    forall d, e | d in pool && e in pool ::
      Even(Count(allocations, d), pool[d].capacity, Count(allocations, e), pool[e].capacity)
  }

  lemma EvenAfterPlacing(a: nat, capA: nat, b: nat, capB: nat)
    requires a < capA && (a * capB <= b * capA || b >= capB)
    ensures Even(a + 1, capA, b, capB)
  {
    if b >= capB { MulMonotone(a, capA, capB); MulMonotone(capB, b, capA); }
  }

  lemma EvenAfterOther(a: nat, capA: nat, b: nat, capB: nat)
    requires Even(a, capA, b, capB)
    ensures Even(a, capA, b + 1, capB)
  {
    MulMonotone(b, b + 1, capA);
  }

  lemma PlaceKeepsBalance(pool: Pool, allocations: Allocations, i: nat)
    requires PoolOk(pool) && WithinCapacity(pool, allocations) && Balanced(pool, allocations)
    requires i !in allocations && Place(pool, allocations).Some?
    ensures var allocations' := allocations[i := Place(pool, allocations).value];
            WithinCapacity(pool, allocations') && Balanced(pool, allocations')
  {
    var c := Place(pool, allocations).value;
    var allocations' := allocations[i := c];
    AllocateCounts(allocations, i, c);
    hide Count, Even;
    forall d, e | d in pool && e in pool
      ensures Even(Count(allocations', d), pool[d].capacity, Count(allocations', e), pool[e].capacity)
    {
      var a, b := Count(allocations, d), Count(allocations, e);
      if d == c {
        if e == c { EvenSelf(a + 1, pool[d].capacity); }
        else { EvenAfterPlacing(a, pool[d].capacity, b, pool[e].capacity); }
      } else if e == c {
        EvenAfterOther(a, pool[d].capacity, b, pool[e].capacity);
      }
    }
  }

  lemma EvenSelf(a: nat, cap: nat)
    ensures Even(a, cap, a, cap)
  {
    MulMonotone(a - 1, a, cap);
  }

  /** Starting from an empty pool, creations leave every pair of databases within one reservation of
      equal utilisation. */
  lemma {:induction false} CreationsStayBalanced(pool: Pool, allocations: Allocations, ids: seq<nat>)
    requires PoolOk(pool) && WithinCapacity(pool, allocations) && Balanced(pool, allocations)
    ensures WithinCapacity(pool, Fill(pool, allocations, ids)) && Balanced(pool, Fill(pool, allocations, ids))
    decreases |ids|
  {
    if ids == [] {
    } else if ids[0] in allocations || Place(pool, allocations).None? {
      CreationsStayBalanced(pool, allocations, ids[1..]);
    } else {
      PlaceKeepsBalance(pool, allocations, ids[0]);
      CreationsStayBalanced(pool, allocations[ids[0] := Place(pool, allocations).value], ids[1..]);
    }
  }

  lemma EmptyPoolBalance(pool: Pool, ids: seq<nat>, d: nat, e: nat)
    requires PoolOk(pool) && d in pool && e in pool
    ensures var a := Fill(pool, map[], ids);
            && Count(a, d) <= pool[d].capacity
            && (Count(a, d) >= 1 ==> (Count(a, d) - 1) * pool[e].capacity <= Count(a, e) * pool[d].capacity)
  {
    EmptyIsBalanced(pool);
    CreationsStayBalanced(pool, map[], ids);
    hide Fill, Count;
    var a := Fill(pool, map[], ids);
    assert Even(Count(a, d), pool[d].capacity, Count(a, e), pool[e].capacity);
  }

  lemma EmptyIsBalanced(pool: Pool)
    ensures Balanced(pool, map[]) && WithinCapacity(pool, map[])
  {
    forall f ensures Count(map[], f) == 0 { assert Users(map[], f) == {}; }
    hide Count;
  }
}
