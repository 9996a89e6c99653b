/** Sorting of entries by a string key, under any total order of strings. */
module KeyedSort {
  type Order = (string, string) -> bool

  ghost predicate TotalOrder(le: Order) {
    && (forall a, b :: le(a, b) || le(b, a))
    && (forall a, b :: le(a, b) && le(b, a) ==> a == b)
    && (forall a, b, c :: le(a, b) && le(b, c) ==> le(a, c))
  }

  ghost predicate Sorted<T>(le: Order, xs: seq<(string, T)>) {
    forall i, j :: 0 <= i < j < |xs| ==> le(xs[i].0, xs[j].0)
  }

  ghost predicate DistinctKeys<T>(xs: seq<(string, T)>) {
    forall i, j :: 0 <= i < j < |xs| ==> xs[i].0 != xs[j].0
  }

  function Insert<T>(le: Order, x: (string, T), xs: seq<(string, T)>): seq<(string, T)> {
    if xs == [] then [x]
    else if le(x.0, xs[0].0) then [x] + xs
    else [xs[0]] + Insert(le, x, xs[1..])
  }

  /** A stable sort. */
  function Sort<T>(le: Order, xs: seq<(string, T)>): seq<(string, T)> {
    if xs == [] then [] else Insert(le, xs[0], Sort(le, xs[1..]))
  }

  lemma {:induction false} InsertKeeps<T>(le: Order, x: (string, T), xs: seq<(string, T)>)
    ensures multiset(Insert(le, x, xs)) == multiset(xs) + multiset{x}
    ensures |Insert(le, x, xs)| == |xs| + 1
  {
    if xs != [] && !le(x.0, xs[0].0) {
      InsertKeeps(le, x, xs[1..]);
      assert xs == [xs[0]] + xs[1..];
    }
  }

  lemma {:induction false} SortKeeps<T>(le: Order, xs: seq<(string, T)>)
    ensures multiset(Sort(le, xs)) == multiset(xs) && |Sort(le, xs)| == |xs|
  {
    if xs != [] {
      SortKeeps(le, xs[1..]);
      InsertKeeps(le, xs[0], Sort(le, xs[1..]));
      assert xs == [xs[0]] + xs[1..];
    }
  }

  /** No entry's key is before this one. */
  ghost predicate AllAfter<T>(le: Order, key: string, xs: seq<(string, T)>) {
    forall i :: 0 <= i < |xs| ==> le(key, xs[i].0)
  }

  lemma {:induction false} InsertSorts<T>(le: Order, x: (string, T), xs: seq<(string, T)>)
    requires TotalOrder(le) && Sorted(le, xs)
    ensures Sorted(le, Insert(le, x, xs))
    ensures forall k :: AllAfter(le, k, xs) && le(k, x.0) ==> AllAfter(le, k, Insert(le, x, xs))
  {
    if xs != [] && !le(x.0, xs[0].0) {
      assert le(xs[0].0, x.0);
      InsertSorts(le, x, xs[1..]);
      assert AllAfter(le, xs[0].0, xs[1..]);
      assert AllAfter(le, xs[0].0, Insert(le, x, xs[1..]));
      forall k | AllAfter(le, k, xs) && le(k, x.0) ensures AllAfter(le, k, Insert(le, x, xs)) {
        assert AllAfter(le, k, xs[1..]);
        assert le(k, xs[0].0);
      }
    }
  }

  lemma {:induction false} SortSorts<T>(le: Order, xs: seq<(string, T)>)
    requires TotalOrder(le)
    ensures Sorted(le, Sort(le, xs))
  {
    if xs != [] {
      SortSorts(le, xs[1..]);
      InsertSorts(le, xs[0], Sort(le, xs[1..]));
    }
  }

  lemma SameElements<T>(xs: seq<T>, ys: seq<T>)
    requires multiset(xs) == multiset(ys)
    ensures forall x :: x in xs <==> x in ys
    ensures |xs| == |ys|
  {
    assert |multiset(xs)| == |xs| && |multiset(ys)| == |ys|;
    forall x ensures x in xs <==> x in ys {
      assert x in xs <==> x in multiset(xs);
      assert x in ys <==> x in multiset(ys);
    }
  }

  lemma MemberOf<T>(xs: seq<T>, ys: seq<T>, x: T)
    requires multiset(xs) == multiset(ys) && x in ys
    ensures x in xs
  {
    assert x in multiset(ys);
    assert x in multiset(xs);
  }

  lemma FirstIsLeast<T>(le: Order, a: seq<(string, T)>, x: (string, T))
    requires TotalOrder(le) && Sorted(le, a) && x in a
    ensures le(a[0].0, x.0)
  {
    var i :| 0 <= i < |a| && a[i] == x;
    if i > 0 {
      assert le(a[0].0, a[i].0);
    }
  }

  lemma SameFirst<T>(le: Order, a: seq<(string, T)>, b: seq<(string, T)>)
    requires TotalOrder(le) && Sorted(le, a) && Sorted(le, b) && DistinctKeys(a)
    requires a != [] && multiset(a) == multiset(b)
    ensures b != [] && a[0] == b[0]
  {
    SameElements(a, b);
    assert a[0] in b && b[0] in a;
    FirstIsLeast(le, a, b[0]);
    FirstIsLeast(le, b, a[0]);
    var i :| 0 <= i < |a| && a[i] == b[0];
    assert a[i].0 == a[0].0;
  }

  lemma TailMultiset<T>(a: seq<T>)
    requires a != []
    ensures multiset(a[1..]) == multiset(a) - multiset{a[0]}
  {
    assert a == [a[0]] + a[1..];
  }

  /** Lists of entries that differ only in order become equal when sorted. */
  lemma {:induction false} SortedAreEqual<T>(le: Order, a: seq<(string, T)>, b: seq<(string, T)>)
    requires TotalOrder(le) && Sorted(le, a) && Sorted(le, b) && DistinctKeys(a)
    requires multiset(a) == multiset(b)
    ensures a == b
    decreases |a|
  {
    SameElements(a, b);
    if a != [] {
      SameFirst(le, a, b);
      TailMultiset(a);
      TailMultiset(b);
      SortedAreEqual(le, a[1..], b[1..]);
      assert a == [a[0]] + a[1..] && b == [b[0]] + b[1..];
    }
  }

  lemma {:induction false} DistinctInMultiset<T>(xs: seq<(string, T)>, x: (string, T))
    requires DistinctKeys(xs)
    ensures multiset(xs)[x] <= 1
  {
    if xs != [] {
      assert xs == [xs[0]] + xs[1..];
      DistinctInMultiset(xs[1..], x);
      if x == xs[0] {
        assert x !in xs[1..];
      }
    }
  }

  /** With distinct keys, having the same elements is being the same multiset. */
  lemma SameMultiset<T>(a: seq<(string, T)>, b: seq<(string, T)>)
    requires DistinctKeys(a) && DistinctKeys(b)
    requires forall x :: x in a <==> x in b
    ensures multiset(a) == multiset(b)
  {
    forall x ensures multiset(a)[x] == multiset(b)[x] {
      DistinctInMultiset(a, x);
      DistinctInMultiset(b, x);
      assert x in multiset(a) <==> x in a;
      assert x in multiset(b) <==> x in b;
    }
  }

  lemma DistinctStays<T>(a: seq<(string, T)>, b: seq<(string, T)>)
    requires DistinctKeys(a) && multiset(a) == multiset(b)
    ensures DistinctKeys(b)
  {
    SameElements(a, b);
    forall i, j | 0 <= i < j < |b| ensures b[i].0 != b[j].0 {
      if b[i].0 == b[j].0 {
        assert b[i] in a && b[j] in a;
        var m :| 0 <= m < |a| && a[m] == b[i];
        var n :| 0 <= n < |a| && a[n] == b[j];
        assert m == n;
        TwiceInMultiset(b, i, j);
        DistinctInMultiset(a, b[i]);
      }
    }
  }

  lemma TwiceInMultiset<T>(xs: seq<T>, i: nat, j: nat)
    requires i < j < |xs| && xs[i] == xs[j]
    ensures multiset(xs)[xs[i]] >= 2
  {
    assert xs == xs[..j] + xs[j..];
    assert xs[..j][i] == xs[i] && xs[j..][0] == xs[i];
    assert xs[i] in multiset(xs[..j]) && xs[i] in multiset(xs[j..]);
  }

  /** The canonical order: entries with distinct keys sort alike exactly when they are the same entries. */
  lemma SortIsCanonical<T>(le: Order, a: seq<(string, T)>, b: seq<(string, T)>)
    requires TotalOrder(le) && DistinctKeys(a) && DistinctKeys(b)
    ensures Sort(le, a) == Sort(le, b) <==> forall x :: x in a <==> x in b
  {
    SortKeeps(le, a);
    SortKeeps(le, b);
    if Sort(le, a) == Sort(le, b) {
      SameElements(a, b);
    }
    if forall x :: x in a <==> x in b {
      SameMultiset(a, b);
      SortSorts(le, a);
      SortSorts(le, b);
      DistinctStays(a, Sort(le, a));
      SortedAreEqual(le, Sort(le, a), Sort(le, b));
    }
  }
}
