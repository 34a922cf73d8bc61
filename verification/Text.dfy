/** Strings in the order in which names and usernames are sorted. */
module Text {

  predicate Less(a: string, b: string) {
    b != "" && (a == "" || a[0] < b[0] || (a[0] == b[0] && Less(a[1..], b[1..])))
  }

  /** The order of the dictionary: the first difference decides, and a prefix comes first. */
  lemma {:induction false} LessExactly(a: string, b: string)
    ensures Less(a, b) <==> exists k: nat :: DiffersAt(a, b, k)
  {
    if b != "" {
      if a == "" {
        assert DiffersAt(a, b, 0);
      } else if a[0] == b[0] {
        LessExactly(a[1..], b[1..]);
        if k: nat :| DiffersAt(a[1..], b[1..], k) { assert DiffersAt(a, b, k + 1); }
        if k: nat :| DiffersAt(a, b, k) {
          assert k > 0;
          assert a[1..][..k - 1] == a[..k][1..] && b[1..][..k - 1] == b[..k][1..];
          assert DiffersAt(a[1..], b[1..], k - 1);
        }
      } else {
        if a[0] < b[0] { assert DiffersAt(a, b, 0); }
        if k: nat :| DiffersAt(a, b, k) { if k > 0 { assert a[..k][0] == b[..k][0]; } }
      }
    }
  }

  predicate DiffersAt(a: string, b: string, k: nat) {
    k <= |a| && k < |b| && a[..k] == b[..k] && (k == |a| || a[k] < b[k])
  }

  lemma {:induction false} LessTransitive(a: string, b: string, c: string)
    requires Less(a, b) && Less(b, c)
    ensures Less(a, c)
  {
    if a != "" && a[0] == b[0] == c[0] { LessTransitive(a[1..], b[1..], c[1..]); }
  }

  lemma {:induction false} LessTotal(a: string, b: string)
    ensures a == b || Less(a, b) || Less(b, a)
    ensures !(Less(a, b) && Less(b, a)) && !Less(a, a)
  {
    if a != "" {
      if b != "" {
        LessTotal(a[1..], b[1..]);
        if a[0] == b[0] && a[1..] == b[1..] { assert a == [a[0]] + a[1..] == b; }
      }
      LessIrreflexive(a);
    }
  }

  lemma {:induction false} LessIrreflexive(a: string)
    ensures !Less(a, a)
  {
    if a != "" { LessIrreflexive(a[1..]); }
  }

  predicate Increasing(xs: seq<string>) {
    forall i, j :: 0 <= i < j < |xs| ==> Less(xs[i], xs[j])
  }

  function Elements(xs: seq<string>): set<string> {
    set x <- xs
  }

  /** `xs` lists the set in increasing order, each element once. */
  predicate Lists(xs: seq<string>, names: set<string>) {
    Increasing(xs) && Elements(xs) == names
  }

  lemma NoElements(xs: seq<string>)
    ensures Elements(xs) == {} ==> xs == []
  {
    if xs != [] { assert xs[0] in Elements(xs); }
  }

  /** There is only one such list. */
  lemma {:induction false} ListsUnique(xs: seq<string>, ys: seq<string>, names: set<string>)
    requires Lists(xs, names) && Lists(ys, names)
    ensures xs == ys
    decreases |xs|
  {
    if xs == [] {
      NoElements(ys);
    } else {
      assert xs[0] in Elements(xs);
      var i :| 0 <= i < |ys| && ys[i] == xs[0];
      assert ys[0] in Elements(xs);
      var j :| 0 <= j < |xs| && xs[j] == ys[0];
      LessTotal(xs[0], ys[0]);
      assert i == 0 && j == 0;
      TailLists(xs, names);
      TailLists(ys, names);
      ListsUnique(xs[1..], ys[1..], names - {xs[0]});
    }
  }

  lemma TailLists(xs: seq<string>, names: set<string>)
    requires Lists(xs, names) && xs != []
    ensures Lists(xs[1..], names - {xs[0]})
  {
    LessIrreflexive(xs[0]);
    forall x ensures x in Elements(xs[1..]) <==> x in names - {xs[0]} {
      if x in names - {xs[0]} { var i :| 0 <= i < |xs| && xs[i] == x; assert x == xs[1..][i - 1]; }
    }
  }

  /** Insert one name into an increasing list that lacks it. */
  function Insert(x: string, xs: seq<string>): seq<string> {
    if xs == [] then [x]
    else if Less(x, xs[0]) then [x] + xs
    else [xs[0]] + Insert(x, xs[1..])
  }

  lemma {:induction false} InsertLists(x: string, xs: seq<string>, names: set<string>)
    requires Lists(xs, names) && x !in names
    ensures Lists(Insert(x, xs), names + {x})
    decreases |xs|
  {
    if xs != [] {
      assert xs[0] in Elements(xs);
      LessTotal(x, xs[0]);
      if Less(x, xs[0]) {
        forall j | 0 <= j < |xs| ensures Less(x, xs[j]) { if j > 0 { LessTransitive(x, xs[0], xs[j]); } }
        assert Elements([x] + xs) == names + {x};
      } else {
        TailLists(xs, names);
        InsertLists(x, xs[1..], names - {xs[0]});
        var rest := Insert(x, xs[1..]);
        forall j | 0 <= j < |rest| ensures Less(xs[0], rest[j]) {
          assert rest[j] in Elements(rest);
          if rest[j] != x { var i :| 0 <= i < |xs[1..]| && xs[1..][i] == rest[j]; }
        }
        forall y ensures y in Elements([xs[0]] + rest) <==> y in names + {x} {
          if y in names + {x} && y != xs[0] { var i :| 0 <= i < |rest| && rest[i] == y; assert ([xs[0]] + rest)[i + 1] == y; }
          if y == xs[0] { assert ([xs[0]] + rest)[0] == y; }
        }
      }
    }
  }

  ghost function Sorted(names: set<string>): (xs: seq<string>)
    ensures Lists(xs, names)
  {
    if names == {} then []
    else
      var x :| x in names;
      InsertLists(x, Sorted(names - {x}), names - {x});
      Insert(x, Sorted(names - {x}))
  }

  method Sort(names: set<string>) returns (xs: seq<string>)
    ensures xs == Sorted(names)
  {
    xs := [];
    var left := names;
    while left != {}
      invariant left <= names && Lists(xs, names - left)
      decreases left
    {
      var x :| x in left;
      InsertLists(x, xs, names - left);
      xs := Insert(x, xs);
      left := left - {x};
      assert names - left == (names - (left + {x})) + {x};
    }
    ListsUnique(xs, Sorted(names), names);
  }
}
