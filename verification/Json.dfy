/**
  Values as JSON trees: the canonical form that sorts object keys, and their text, which
  determines them.
 */
module Json {
  import opened Decimals
  import opened KeyedSort

  datatype Json =
    | Null
    | Bool(b: bool)
    | Num(n: int)
    | Str(s: string)
    | Arr(items: seq<Json>)
    | Obj(entries: seq<(string, Json)>)

  /** Objects have each key once. */
  ghost predicate WellFormed(j: Json) {
    match j
    case Arr(items) => forall i :: 0 <= i < |items| ==> WellFormed(items[i])
    case Obj(entries) => DistinctKeys(entries) && forall i :: 0 <= i < |entries| ==> WellFormed(entries[i].1)
    case _ => true
  }

  /** Equal up to the order of keys in objects, at every depth. */
  ghost predicate Same(a: Json, b: Json)
    decreases a, 1
  {
    match (a, b)
    case (Arr(xs), Arr(ys)) => |xs| == |ys| && forall i :: 0 <= i < |xs| ==> Same(xs[i], ys[i])
    case (Obj(xs), Obj(ys)) =>
      (forall i :: 0 <= i < |xs| ==> FoundIn(a, b, i)) && (forall j :: 0 <= j < |ys| ==> FoundFrom(a, b, j))
    case _ => a == b
  }

  /** The entry number `i` of `a` is among those of `b`. */
  ghost predicate FoundIn(a: Json, b: Json, i: nat)
    requires a.Obj? && b.Obj? && i < |a.entries|
    decreases a, 0
  {
    exists j :: 0 <= j < |b.entries| && a.entries[i].0 == b.entries[j].0 && Same(a.entries[i].1, b.entries[j].1)
  }

  /** The entry number `j` of `b` is among those of `a`. */
  ghost predicate FoundFrom(a: Json, b: Json, j: nat)
    requires a.Obj? && b.Obj? && j < |b.entries|
    decreases a, 0
  {
    exists i :: 0 <= i < |a.entries| && a.entries[i].0 == b.entries[j].0 && Same(a.entries[i].1, b.entries[j].1)
  }

  function StableEntry(le: Order, e: (string, Json)): (string, Json)
    decreases e.1, 1
  {
    (e.0, Stable(le, e.1))
  }

  /** The value with the keys of every object sorted. */
  function Stable(le: Order, j: Json): Json
    decreases j, 0
  {
    match j
    case Arr(items) => Arr(seq(|items|, i requires 0 <= i < |items| => Stable(le, items[i])))
    case Obj(entries) => Obj(Sort(le, seq(|entries|, i requires 0 <= i < |entries| => StableEntry(le, entries[i]))))
    case _ => j
  }

  ghost function StableEntries(le: Order, xs: seq<(string, Json)>): (r: seq<(string, Json)>)
    ensures |r| == |xs| && forall i :: 0 <= i < |r| ==> r[i] == (xs[i].0, Stable(le, xs[i].1))
  {
    seq(|xs|, i requires 0 <= i < |xs| => StableEntry(le, xs[i]))
  }

  /** The canonical form: two values have the same one exactly when they differ only in key order. */
  lemma {:induction false} StableIsCanonical(le: Order, a: Json, b: Json)
    requires TotalOrder(le) && WellFormed(a) && WellFormed(b)
    ensures Stable(le, a) == Stable(le, b) <==> Same(a, b)
    decreases a
  {
    match (a, b)
    case (Arr(xs), Arr(ys)) => {
      if |xs| == |ys| {
        forall i | 0 <= i < |xs| ensures Stable(le, xs[i]) == Stable(le, ys[i]) <==> Same(xs[i], ys[i]) {
          StableIsCanonical(le, xs[i], ys[i]);
        }
        StableArrays(le, xs, ys);
      }
    }
    case (Obj(xs), Obj(ys)) => {
      forall i, j | 0 <= i < |xs| && 0 <= j < |ys|
        ensures Stable(le, xs[i].1) == Stable(le, ys[j].1) <==> Same(xs[i].1, ys[j].1)
      {
        StableIsCanonical(le, xs[i].1, ys[j].1);
      }
      StableObjects(le, xs, ys);
      SameAsEntries(le, xs, ys);
    }
    case _ =>
  }

  lemma StableArrays(le: Order, xs: seq<Json>, ys: seq<Json>)
    requires |xs| == |ys|
    ensures Stable(le, Arr(xs)) == Stable(le, Arr(ys)) <==>
              forall i :: 0 <= i < |xs| ==> Stable(le, xs[i]) == Stable(le, ys[i])
  {
    var a, b := Stable(le, Arr(xs)).items, Stable(le, Arr(ys)).items;
    assert forall i :: 0 <= i < |xs| ==> a[i] == Stable(le, xs[i]) && b[i] == Stable(le, ys[i]);
    if forall i :: 0 <= i < |xs| ==> Stable(le, xs[i]) == Stable(le, ys[i]) {
      assert a == b;
    }
  }

  lemma StableObjects(le: Order, xs: seq<(string, Json)>, ys: seq<(string, Json)>)
    requires TotalOrder(le) && DistinctKeys(xs) && DistinctKeys(ys)
    ensures Stable(le, Obj(xs)) == Stable(le, Obj(ys)) <==>
              forall x :: x in StableEntries(le, xs) <==> x in StableEntries(le, ys)
  {
    assert Stable(le, Obj(xs)) == Obj(Sort(le, StableEntries(le, xs)));
    assert Stable(le, Obj(ys)) == Obj(Sort(le, StableEntries(le, ys)));
    SortIsCanonical(le, StableEntries(le, xs), StableEntries(le, ys));
  }

  /** Canonical forms decide sameness of the values under two lists of keys. */
  ghost predicate Decided(le: Order, xs: seq<(string, Json)>, ys: seq<(string, Json)>) {
    forall i, j :: 0 <= i < |xs| && 0 <= j < |ys| ==>
      (Stable(le, xs[i].1) == Stable(le, ys[j].1) <==> Same(xs[i].1, ys[j].1))
  }

  lemma FoundInIs(le: Order, xs: seq<(string, Json)>, ys: seq<(string, Json)>, i: nat)
    requires Decided(le, xs, ys) && i < |xs|
    ensures FoundIn(Obj(xs), Obj(ys), i) <==> StableEntries(le, xs)[i] in StableEntries(le, ys)
  {
    var e, b := StableEntries(le, xs)[i], StableEntries(le, ys);
    if e in b {
      var j :| 0 <= j < |b| && b[j] == e;
      assert Same(xs[i].1, ys[j].1);
    }
    if FoundIn(Obj(xs), Obj(ys), i) {
      var j :| 0 <= j < |ys| && xs[i].0 == ys[j].0 && Same(xs[i].1, ys[j].1);
      assert b[j] == e;
    }
  }

  lemma FoundFromIs(le: Order, xs: seq<(string, Json)>, ys: seq<(string, Json)>, j: nat)
    requires Decided(le, xs, ys) && j < |ys|
    ensures FoundFrom(Obj(xs), Obj(ys), j) <==> StableEntries(le, ys)[j] in StableEntries(le, xs)
  {
    var a, e := StableEntries(le, xs), StableEntries(le, ys)[j];
    if e in a {
      var i :| 0 <= i < |a| && a[i] == e;
      assert Same(xs[i].1, ys[j].1);
    }
    if FoundFrom(Obj(xs), Obj(ys), j) {
      var i :| 0 <= i < |xs| && xs[i].0 == ys[j].0 && Same(xs[i].1, ys[j].1);
      assert a[i] == e;
    }
  }

  lemma AllIn<T>(a: seq<T>, b: seq<T>)
    ensures (forall i :: 0 <= i < |a| ==> a[i] in b) <==> (forall x :: x in a ==> x in b)
  {
  }

  lemma SameGivesEntries(le: Order, xs: seq<(string, Json)>, ys: seq<(string, Json)>)
    requires Decided(le, xs, ys) && Same(Obj(xs), Obj(ys))
    ensures forall x :: x in StableEntries(le, xs) <==> x in StableEntries(le, ys)
  {
    var a, b := StableEntries(le, xs), StableEntries(le, ys);
    forall i | 0 <= i < |a| ensures a[i] in b {
      assert FoundIn(Obj(xs), Obj(ys), i);
      FoundInIs(le, xs, ys, i);
    }
    forall j | 0 <= j < |b| ensures b[j] in a {
      assert FoundFrom(Obj(xs), Obj(ys), j);
      FoundFromIs(le, xs, ys, j);
    }
    AllIn(a, b);
    AllIn(b, a);
  }

  lemma EntriesGiveSame(le: Order, xs: seq<(string, Json)>, ys: seq<(string, Json)>)
    requires Decided(le, xs, ys)
    requires forall x :: x in StableEntries(le, xs) <==> x in StableEntries(le, ys)
    ensures Same(Obj(xs), Obj(ys))
  {
    var a, b := StableEntries(le, xs), StableEntries(le, ys);
    forall i | 0 <= i < |xs| ensures FoundIn(Obj(xs), Obj(ys), i) {
      assert a[i] in b;
      FoundInIs(le, xs, ys, i);
    }
    forall j | 0 <= j < |ys| ensures FoundFrom(Obj(xs), Obj(ys), j) {
      assert b[j] in a;
      FoundFromIs(le, xs, ys, j);
    }
  }

  /** Having the same canonical entries, key by key. */
  lemma SameAsEntries(le: Order, xs: seq<(string, Json)>, ys: seq<(string, Json)>)
    requires Decided(le, xs, ys)
    ensures Same(Obj(xs), Obj(ys)) <==> forall x :: x in StableEntries(le, xs) <==> x in StableEntries(le, ys)
  {
    if Same(Obj(xs), Obj(ys)) {
      SameGivesEntries(le, xs, ys);
    }
    if forall x :: x in StableEntries(le, xs) <==> x in StableEntries(le, ys) {
      EntriesGiveSame(le, xs, ys);
    }
  }

  // ------------------------------------------------ the canonical form again

  lemma {:induction false} StableKeepsWellFormed(le: Order, j: Json)
    requires WellFormed(j)
    ensures WellFormed(Stable(le, j))
    decreases j
  {
    match j
    case Arr(items) =>
      forall i | 0 <= i < |items| ensures WellFormed(Stable(le, j).items[i]) {
        StableKeepsWellFormed(le, items[i]);
      }
    case Obj(entries) =>
      var e := StableEntries(le, entries);
      assert Stable(le, j) == Obj(Sort(le, e));
      SortKeeps(le, e);
      SameElements(e, Sort(le, e));
      DistinctStays(e, Sort(le, e));
      forall i | 0 <= i < |entries| ensures WellFormed(e[i].1) {
        StableKeepsWellFormed(le, entries[i].1);
      }
      forall n | 0 <= n < |Sort(le, e)| ensures WellFormed(Sort(le, e)[n].1) {
        assert Sort(le, e)[n] in e;
      }
    case _ =>
  }

  /** Taking the canonical form twice is taking it once. */
  lemma {:induction false} StableTwice(le: Order, j: Json)
    requires TotalOrder(le) && WellFormed(j)
    ensures Stable(le, Stable(le, j)) == Stable(le, j)
    decreases j
  {
    match j
    case Arr(items) =>
      var once := Stable(le, j).items;
      forall i | 0 <= i < |items| ensures Stable(le, once[i]) == once[i] {
        StableTwice(le, items[i]);
      }
      assert Stable(le, Stable(le, j)).items == once;
    case Obj(entries) =>
      forall i | 0 <= i < |entries| ensures Stable(le, Stable(le, entries[i].1)) == Stable(le, entries[i].1) {
        StableTwice(le, entries[i].1);
      }
      StableObjectTwice(le, entries);
    case _ =>
  }

  lemma StableObjectTwice(le: Order, entries: seq<(string, Json)>)
    requires TotalOrder(le) && DistinctKeys(entries)
    requires forall i :: 0 <= i < |entries| ==> Stable(le, Stable(le, entries[i].1)) == Stable(le, entries[i].1)
    ensures Stable(le, Stable(le, Obj(entries))) == Stable(le, Obj(entries))
  {
    var e := StableEntries(le, entries);
    var once := Sort(le, e);
    assert Stable(le, Obj(entries)) == Obj(once);
    SortKeeps(le, e);
    SameElements(e, once);
    DistinctStays(e, once);
    var again := StableEntries(le, once);
    forall n | 0 <= n < |once| ensures again[n] == once[n] {
      assert once[n] in e;
      var i :| 0 <= i < |e| && e[i] == once[n];
      assert Stable(le, Stable(le, entries[i].1)) == Stable(le, entries[i].1);
    }
    assert again == once;
    SortIsCanonical(le, once, e);
    assert Stable(le, Obj(once)) == Obj(Sort(le, again));
  }

  lemma SameIsTransitive(le: Order, a: Json, b: Json, c: Json)
    requires TotalOrder(le) && WellFormed(a) && WellFormed(b) && WellFormed(c) && Same(b, c)
    ensures Same(a, b) <==> Same(a, c)
  {
    StableIsCanonical(le, a, b);
    StableIsCanonical(le, b, c);
    StableIsCanonical(le, a, c);
  }

  // ------------------------------------------------------------ reading fields

  function Lookup(entries: seq<(string, Json)>, key: string): (r: Json)
    ensures (exists i :: 0 <= i < |entries| && entries[i].0 == key) ==> (key, r) in entries
    ensures (forall i :: 0 <= i < |entries| ==> entries[i].0 != key) ==> r == Null
  {
    if entries == [] then Null
    else if entries[0].0 == key then entries[0].1
    else
      var r := Lookup(entries[1..], key);
      assert entries == [entries[0]] + entries[1..];
      r
  }

  /** A property of a value; `Null` where there is none. */
  function At(j: Json, key: string): Json {
    if j.Obj? then Lookup(j.entries, key) else Null
  }

  function TextOf(j: Json): string { if j.Str? then j.s else "" }

  function ItemsOf(j: Json): seq<Json> { if j.Arr? then j.items else [] }

  lemma LookupDistinct(entries: seq<(string, Json)>, i: nat)
    requires DistinctKeys(entries) && i < |entries|
    ensures Lookup(entries, entries[i].0) == entries[i].1
  {
    var r := Lookup(entries, entries[i].0);
    assert (entries[i].0, r) in entries;
    var n :| 0 <= n < |entries| && entries[n] == (entries[i].0, r);
    assert n == i;
  }

  /** Values that differ only in key order have such properties too. */
  lemma SameAt(a: Json, b: Json, key: string)
    requires a.Obj? && b.Obj? && WellFormed(a) && WellFormed(b) && Same(a, b)
    ensures Same(At(a, key), At(b, key))
  {
    if exists i :: 0 <= i < |a.entries| && a.entries[i].0 == key {
      var i :| 0 <= i < |a.entries| && a.entries[i].0 == key;
      assert FoundIn(a, b, i);
      var j :| 0 <= j < |b.entries| && a.entries[i].0 == b.entries[j].0 && Same(a.entries[i].1, b.entries[j].1);
      LookupDistinct(a.entries, i);
      LookupDistinct(b.entries, j);
    } else {
      forall j | 0 <= j < |b.entries| ensures b.entries[j].0 != key {
        assert FoundFrom(a, b, j);
      }
    }
  }

  lemma OnlyOwnMatches(xs: seq<(string, Json)>, ys: seq<(string, Json)>, i: nat)
    requires |xs| == |ys| && DistinctKeys(xs) && i < |xs|
    requires forall n :: 0 <= n < |xs| ==> xs[n].0 == ys[n].0
    ensures FoundIn(Obj(xs), Obj(ys), i) <==> Same(xs[i].1, ys[i].1)
    ensures FoundFrom(Obj(xs), Obj(ys), i) <==> Same(xs[i].1, ys[i].1)
  {
    if FoundIn(Obj(xs), Obj(ys), i) {
      var j :| 0 <= j < |ys| && xs[i].0 == ys[j].0 && Same(xs[i].1, ys[j].1);
      assert xs[j].0 == ys[j].0;
      assert j == i;
    }
    if FoundFrom(Obj(xs), Obj(ys), i) {
      var j :| 0 <= j < |xs| && xs[j].0 == ys[i].0 && Same(xs[j].1, ys[i].1);
      assert xs[i].0 == ys[i].0;
      assert j == i;
    }
  }

  /** Objects written with the same keys in the same order. */
  lemma SameFields(xs: seq<(string, Json)>, ys: seq<(string, Json)>)
    requires |xs| == |ys| && DistinctKeys(xs)
    requires forall n :: 0 <= n < |xs| ==> xs[n].0 == ys[n].0
    ensures Same(Obj(xs), Obj(ys)) <==> forall i :: 0 <= i < |xs| ==> Same(xs[i].1, ys[i].1)
  {
    forall i | 0 <= i < |xs|
      ensures FoundIn(Obj(xs), Obj(ys), i) <==> Same(xs[i].1, ys[i].1)
      ensures FoundFrom(Obj(xs), Obj(ys), i) <==> Same(xs[i].1, ys[i].1)
    {
      OnlyOwnMatches(xs, ys, i);
    }
  }
}
