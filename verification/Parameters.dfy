/** Resolution of workspace parameters against the user parameters a template defines. */
module Parameters {
  import opened Records

  datatype Definition = Definition(name: string, required: bool, mutable: bool, default: Option<string>)

  datatype Fault = Configuration | Immutable

  datatype Result = Resolved(values: map<string, string>) | Rejected(fault: Fault)

  type Values = map<string, string>

  function Names(defs: seq<Definition>): set<string> {
    set d <- defs :: d.name
  }

  predicate DistinctNames(defs: seq<Definition>) {
    forall i, j :: 0 <= i < j < |defs| ==> defs[i].name != defs[j].name
  }

  function Prior(previous: Option<Values>): Values {
    if previous.Some? then previous.value else map[]
  }

  /** Only a value that is already stored unchanged may be supplied for a name that has no definition. */
  predicate Known(defs: seq<Definition>, previous: Option<Values>, name: string, value: string) {
    name in Names(defs) || (name in Prior(previous) && Prior(previous)[name] == value)
  }

  datatype Choice = Use(value: string) | Skip | Refuse(fault: Fault)

  /** The value one definition contributes. */
  function Choose(d: Definition, supplied: Values, previous: Option<Values>): Choice {
    var prior := Prior(previous);
    var choice :=
      if d.name in supplied then Use(supplied[d.name])
      else if previous.Some? && !d.mutable && d.name in prior then Use(prior[d.name])
      else if d.default.Some? then Use(d.default.value)
      else if d.required then Refuse(Configuration)
      else Skip;
    if choice.Use? && previous.Some? && !d.mutable && d.name in prior && prior[d.name] != choice.value
    then Refuse(Immutable) else choice
  }

  function Fill(defs: seq<Definition>, supplied: Values, previous: Option<Values>, resolved: Values): Result
    decreases |defs|
  {
    if defs == [] then Resolved(resolved)
    else match Choose(defs[0], supplied, previous)
      case Refuse(fault) => Rejected(fault)
      case Skip => Fill(defs[1..], supplied, previous, resolved)
      case Use(value) => Fill(defs[1..], supplied, previous, resolved[defs[0].name := value])
  }

  function Kept(defs: seq<Definition>, previous: Option<Values>): Values {
    map name | name in Prior(previous) && name !in Names(defs) :: Prior(previous)[name]
  }

  function Resolve(defs: seq<Definition>, supplied: Values, previous: Option<Values>): Result {
    if exists name <- supplied :: !Known(defs, previous, name, supplied[name]) then Rejected(Configuration)
    else Fill(defs, supplied, previous, Kept(defs, previous))
  }

  /** `_resolve_parameters`: the definitions come ordered by name. */
  method ResolveParameters(defs: seq<Definition>, supplied: Values, previous: Option<Values>) returns (r: Result)
    ensures r == Resolve(defs, supplied, previous)
  {
    var byName := Names(defs);
    var prior := Prior(previous);
    var left := supplied.Keys;
    while left != {}
      invariant left <= supplied.Keys
      invariant forall name <- supplied.Keys - left :: Known(defs, previous, name, supplied[name])
      decreases left
    {
      var name :| name in left;
      if name !in byName && (name !in prior || prior[name] != supplied[name]) {
        return Rejected(Configuration);
      }
      left := left - {name};
    }
    assert forall name <- supplied :: name in supplied.Keys - left;

    var resolved := map name | name in prior && name !in byName :: prior[name];
    var k := 0;
    while k < |defs|
      invariant k <= |defs|
      invariant Fill(defs[k..], supplied, previous, resolved) == Resolve(defs, supplied, previous)
    {
      var d := defs[k];
      assert defs[k..][1..] == defs[k + 1..];
      var value := "";
      var present := true;
      if d.name in supplied {
        value := supplied[d.name];
      } else if previous.Some? && !d.mutable && d.name in prior {
        value := prior[d.name];
      } else if d.default.Some? {
        value := d.default.value;
      } else if d.required {
        return Rejected(Configuration);
      } else {
        present := false;
      }
      if present {
        if previous.Some? && !d.mutable && d.name in prior && prior[d.name] != value {
          return Rejected(Immutable);
        }
        resolved := resolved[d.name := value];
      }
      k := k + 1;
    }
    return Resolved(resolved);
  }

  // ---------- what resolution promises ----------

  /** A request is accepted exactly when every supplied name is known and no definition refuses, and
      the result then holds exactly the values the definitions choose and the old values without a
      definition. */
  lemma ResolveMeaning(defs: seq<Definition>, supplied: Values, previous: Option<Values>)
    requires DistinctNames(defs)
    ensures Resolve(defs, supplied, previous).Resolved? <==>
              && (forall name <- supplied :: Known(defs, previous, name, supplied[name]))
              && (forall d <- defs :: !Choose(d, supplied, previous).Refuse?)
    ensures var r := Resolve(defs, supplied, previous);
            r.Resolved? ==>
              && (forall d <- defs :: match Choose(d, supplied, previous)
                                      case Use(value) => d.name in r.values && r.values[d.name] == value
                                      case _ => d.name !in r.values)
              && (forall name | name !in Names(defs) ::
                    if name in Prior(previous) then name in r.values && r.values[name] == Prior(previous)[name]
                    else name !in r.values)
  {
    FillMeaning(defs, supplied, previous, Kept(defs, previous));
  }

  lemma {:induction false} FillMeaning(defs: seq<Definition>, supplied: Values, previous: Option<Values>, acc: Values)
    requires DistinctNames(defs) && (forall d <- defs :: d.name !in acc)
    ensures Fill(defs, supplied, previous, acc).Resolved? <==> forall d <- defs :: !Choose(d, supplied, previous).Refuse?
    ensures var r := Fill(defs, supplied, previous, acc);
            r.Resolved? ==>
              && (forall d <- defs :: match Choose(d, supplied, previous)
                                      case Use(value) => d.name in r.values && r.values[d.name] == value
                                      case _ => d.name !in r.values)
              && (forall name | name !in Names(defs) ::
                    (name in r.values <==> name in acc) && (name in acc ==> r.values[name] == acc[name]))
    decreases |defs|
  {
    if defs != [] {
      var d, rest := defs[0], defs[1..];
      assert forall e <- defs :: e == d || e in rest;
      assert forall e <- rest :: e in defs && e.name != d.name;
      assert Names(defs) == Names(rest) + {d.name};
      match Choose(d, supplied, previous)
      case Refuse(_) => assert d in defs;
      case Skip => FillMeaning(rest, supplied, previous, acc);
      case Use(value) => FillMeaning(rest, supplied, previous, acc[d.name := value]);
    }
  }

  /** A supplied name without a definition, unless it repeats what is stored. */
  predicate Unknown(defs: seq<Definition>, supplied: Values, previous: Option<Values>, name: string) {
    && name in supplied && (forall d <- defs :: d.name != name)
    && !(previous.Some? && name in previous.value && previous.value[name] == supplied[name])
  }

  /** A required value that is neither supplied nor stored for good nor given by default. */
  predicate Missing(d: Definition, supplied: Values, previous: Option<Values>) {
    && d.required && d.name !in supplied && d.default.None?
    && !(previous.Some? && !d.mutable && d.name in previous.value)
  }

  /** Another value for a stored one that may not change. */
  predicate Frozen(d: Definition, supplied: Values, previous: Option<Values>) {
    && previous.Some? && !d.mutable && d.name in previous.value
    && d.name in supplied && supplied[d.name] != previous.value[d.name]
  }

  /** The definition at `k` is the first one at fault, and its fault is a frozen value. */
  predicate FrozenFirst(defs: seq<Definition>, supplied: Values, previous: Option<Values>, k: nat)
    requires k < |defs|
  {
    && Frozen(defs[k], supplied, previous)
    && forall j :: 0 <= j < k ==> !Missing(defs[j], supplied, previous) && !Frozen(defs[j], supplied, previous)
  }

  /** Exactly when a request is refused, and as what: an unknown name or a missing value is a configuration
      error, a frozen value a conflict, and of several faults in the definitions the first one counts. */
  lemma RefusedExactly(defs: seq<Definition>, supplied: Values, previous: Option<Values>)
    requires DistinctNames(defs)
    ensures var r := Resolve(defs, supplied, previous); var unknown := exists name <- supplied :: Unknown(defs, supplied, previous, name);
            && (r.Rejected? <==>
                  unknown || exists d <- defs :: Missing(d, supplied, previous) || Frozen(d, supplied, previous))
            && (r == Rejected(Immutable) <==>
                  !unknown && exists k :: 0 <= k < |defs| && FrozenFirst(defs, supplied, previous, k))
  {
    UnknownExactly(defs, supplied, previous);
    FillRefuses(defs, supplied, previous, Kept(defs, previous));
    hide Fill, Kept, Missing, Frozen, FrozenFirst, Unknown, Known;
  }

  lemma UnknownExactly(defs: seq<Definition>, supplied: Values, previous: Option<Values>)
    ensures forall name <- supplied :: Unknown(defs, supplied, previous, name) <==> !Known(defs, previous, name, supplied[name])
  {}

  lemma {:induction false} FillRefuses(defs: seq<Definition>, supplied: Values, previous: Option<Values>, acc: Values)
    ensures var r := Fill(defs, supplied, previous, acc);
            && (r.Rejected? <==> exists d <- defs :: Missing(d, supplied, previous) || Frozen(d, supplied, previous))
            && (r == Rejected(Immutable) <==>
                  exists k :: 0 <= k < |defs| && FrozenFirst(defs, supplied, previous, k))
    decreases |defs|
  {
    if defs != [] {
      var d, rest := defs[0], defs[1..];
      assert defs == [d] + rest;
      var choice := Choose(d, supplied, previous);
      var acc' := if choice.Use? then acc[d.name := choice.value] else acc;
      FillRefuses(rest, supplied, previous, acc');
      assert forall e <- defs :: e == d || e in rest;
      assert choice.Refuse? <==> Missing(d, supplied, previous) || Frozen(d, supplied, previous);
      assert choice == Refuse(Immutable) <==> Frozen(d, supplied, previous);
      hide Missing, Frozen, Choose, FrozenFirst;
      if choice.Refuse? {
        assert d in defs;
        FirstFaults(defs, supplied, previous);
      } else {
        FirstShifts(defs, supplied, previous);
      }
    }
  }

  lemma FirstFaults(defs: seq<Definition>, supplied: Values, previous: Option<Values>)
    requires defs != [] && (Missing(defs[0], supplied, previous) || Frozen(defs[0], supplied, previous))
    ensures (exists k :: 0 <= k < |defs| && FrozenFirst(defs, supplied, previous, k)) <==> Frozen(defs[0], supplied, previous)
  {
    if Frozen(defs[0], supplied, previous) { assert FrozenFirst(defs, supplied, previous, 0); }
    hide Missing, Frozen;
  }

  /** The first fault of a list whose head has none is the first fault of the tail. */
  lemma FirstShifts(defs: seq<Definition>, supplied: Values, previous: Option<Values>)
    requires defs != [] && !Missing(defs[0], supplied, previous) && !Frozen(defs[0], supplied, previous)
    ensures (exists k :: 0 <= k < |defs| && FrozenFirst(defs, supplied, previous, k))
            <==> (exists k :: 0 <= k < |defs[1..]| && FrozenFirst(defs[1..], supplied, previous, k))
  {
    hide Missing, Frozen;
    var rest := defs[1..];
    assert forall j :: 0 <= j < |rest| ==> rest[j] == defs[j + 1];
    if k :| 0 <= k < |defs| && FrozenFirst(defs, supplied, previous, k) {
      assert k > 0 && FrozenFirst(rest, supplied, previous, k - 1);
    }
    if k :| 0 <= k < |rest| && FrozenFirst(rest, supplied, previous, k) {
      forall j | 0 <= j < k + 1 ensures !Missing(defs[j], supplied, previous) && !Frozen(defs[j], supplied, previous) {
        if j > 0 { assert rest[j - 1] == defs[j]; }
      }
      assert FrozenFirst(defs, supplied, previous, k + 1);
    }
  }

  /** What an accepted request stores: every supplied value; of the other defined names a stored immutable
      value, else the default, else nothing; and the stored values of names without a definition. */
  lemma StoredExactly(defs: seq<Definition>, supplied: Values, previous: Option<Values>, name: string)
    requires DistinctNames(defs) && Resolve(defs, supplied, previous).Resolved?
    ensures var values := Resolve(defs, supplied, previous).values;
            && (name in supplied ==> name in values && values[name] == supplied[name])
            && (forall d <- defs :: d.name == name && name !in supplied ==>
                  if previous.Some? && !d.mutable && name in previous.value then name in values && values[name] == previous.value[name]
                  else if d.default.Some? then name in values && values[name] == d.default.value
                  else name !in values)
            && ((forall d <- defs :: d.name != name) && name !in supplied ==>
                  if previous.Some? && name in previous.value then name in values && values[name] == previous.value[name]
                  else name !in values)
  {
    ResolveMeaning(defs, supplied, previous);
    if name in Names(defs) {
      var d :| d in defs && d.name == name;
      forall e | e in defs && e.name == name ensures e == d {
        var j :| 0 <= j < |defs| && defs[j] == d;
        var k :| 0 <= k < |defs| && defs[k] == e;
      }
    }
  }

  lemma RequiredPresent(defs: seq<Definition>, supplied: Values, previous: Option<Values>, d: Definition)
    requires DistinctNames(defs) && d in defs && d.required
    requires Resolve(defs, supplied, previous).Resolved?
    ensures d.name in Resolve(defs, supplied, previous).values
  {
    ResolveMeaning(defs, supplied, previous);
  }

  /** Resolving a result against itself under the same definitions returns it unchanged. */
  lemma EchoIsStable(defs: seq<Definition>, supplied: Values, previous: Option<Values>)
    requires DistinctNames(defs) && Resolve(defs, supplied, previous).Resolved?
    ensures var r := Resolve(defs, supplied, previous).values;
            Resolve(defs, r, Some(r)) == Resolved(r)
  {
    var r := Resolve(defs, supplied, previous).values;
    ResolveMeaning(defs, supplied, previous);
    ResolveMeaning(defs, r, Some(r));
    forall d <- defs ensures Choose(d, r, Some(r)) == if d.name in r then Use(r[d.name]) else Skip {}
    var again := Resolve(defs, r, Some(r)).values;
    forall name ensures (name in again <==> name in r) && (name in r ==> again[name] == r[name]) {
      if name in Names(defs) { var d :| d in defs && d.name == name; }
    }
    assert again.Keys == r.Keys;
    assert again == r;
  }

  // ---------- whole histories ----------

  /** One update request, under the definitions of its time. */
  datatype Edit = Edit(defs: seq<Definition>, supplied: Values)

  function Stored(values: Values, edits: seq<Edit>): Values
    decreases |edits|
  {
    if edits == [] then values
    else match Resolve(edits[0].defs, edits[0].supplied, Some(values))
      case Resolved(r) => Stored(r, edits[1..])
      case Rejected(_) => Stored(values, edits[1..])
  }

  predicate FrozenIn(e: Edit, name: string) {
    DistinctNames(e.defs) && forall d <- e.defs :: d.name == name ==> !d.mutable
  }

  /** A stored value whose definition is immutable whenever it is defined never changes or
      disappears, through deletions and re-creations of the definition and whatever clients send. */
  lemma {:induction false} ImmutableForever(values: Values, edits: seq<Edit>, name: string)
    requires name in values && forall e <- edits :: FrozenIn(e, name)
    ensures name in Stored(values, edits) && Stored(values, edits)[name] == values[name]
    decreases |edits|
  {
    if edits != [] {
      var e := edits[0];
      assert FrozenIn(e, name);
      ResolveMeaning(e.defs, e.supplied, Some(values));
      if name in Names(e.defs) {
        var d :| d in e.defs && d.name == name;
        assert !d.mutable;
      }
      match Resolve(e.defs, e.supplied, Some(values))
      case Resolved(r) => ImmutableForever(r, edits[1..], name);
      case Rejected(_) => ImmutableForever(values, edits[1..], name);
    }
  }

  /** The other half: one mutable definition is enough for a client to change any stored value. */
  lemma MutableCanChange(values: Values, d: Definition, value: string)
    requires d.name in values && d.mutable
    ensures var after := Stored(values, [Edit([d], map[d.name := value])]);
            d.name in after && after[d.name] == value
  {
    var e := Edit([d], map[d.name := value]);
    ResolveMeaning([d], e.supplied, Some(values));
    assert d in e.defs && d.name in Names(e.defs);
    assert Stored(values, [e]) == Resolve([d], e.supplied, Some(values)).values;
  }
}
