/**
  The snapshot of login contexts kept with a pending selection, and the check that decides
  whether the selection is still valid.  References for new contexts are any function of
  the context; the two orders used for sorting are any total orders.
 */
module LoginSnapshot {
  import opened Wrappers
  import opened KeyedSort
  import opened Json
  import opened JsonText

  datatype Context =
    | Tenant(
        contextId: string, tenantMembershipId: string, tenantId: string, tenantName: string, identityId: string,
        userId: string, identityVersion: int, membershipVersion: int, tenantVersion: int, userVersion: int)
    | Platform(
        contextId: string, identityId: string, platformMembershipId: string,
        identityVersion: int, membershipVersion: int, platformVersion: int)

  datatype Contexts = Contexts(identityVersion: int, contexts: seq<Context>)

  datatype Reference = Reference(contextType: string, contextId: string, contextRef: string)

  type Random = Context -> string

  function TypeOf(c: Context): string { if c.Tenant? then "tenant" else "platform" }

  /** The key contexts are ordered by. */
  function KeyOf(c: Context): string { TypeOf(c) + ":" + c.contextId }

  lemma KeyDetermines(c: Context, d: Context)
    ensures KeyOf(c) == KeyOf(d) <==> TypeOf(c) == TypeOf(d) && c.contextId == d.contextId
  {
    assert KeyOf(c)[0] == TypeOf(c)[0] && KeyOf(d)[0] == TypeOf(d)[0];
    if KeyOf(c) == KeyOf(d) {
      assert TypeOf(c) == TypeOf(d);
      AfterPrefix(TypeOf(c) + ":", c.contextId, d.contextId);
    }
  }

  // ------------------------------------------------------------ the snapshot

  /** The fields a snapshot has of one context. */
  function Fields(c: Context, contextRef: string): seq<(string, Json)> {
    match c
    case Tenant(id, membership, tenant, _, _, user, identityV, membershipV, tenantV, userV) =>
      [("contextId", Str(id)), ("contextType", Str("tenant")), ("identitySecurityVersion", Num(identityV)),
       ("membershipSecurityVersion", Num(membershipV)), ("tenantId", Str(tenant)),
       ("tenantMembershipId", Str(membership)), ("userId", Str(user)), ("tenantSecurityVersion", Num(tenantV)),
       ("userSecurityVersion", Num(userV)), ("contextRef", Str(contextRef))]
    case Platform(id, _, membership, identityV, membershipV, platformV) =>
      [("contextId", Str(id)), ("contextType", Str("platform")), ("identitySecurityVersion", Num(identityV)),
       ("membershipSecurityVersion", Num(membershipV)), ("platformMembershipId", Str(membership)),
       ("platformSecurityVersion", Num(platformV)), ("contextRef", Str(contextRef))]
  }

  /** What of a context a snapshot shows: its name and its identity are not among it. */
  function Shown(c: Context): Context {
    match c
    case Tenant(id, membership, tenant, _, _, user, a, b, t, u) =>
      Tenant(id, membership, tenant, "", "", user, a, b, t, u)
    case Platform(id, _, membership, a, b, p) => Platform(id, "", membership, a, b, p)
  }

  function Keyed(contexts: seq<Context>): (r: seq<(string, Context)>)
    ensures |r| == |contexts| && forall i :: 0 <= i < |r| ==> r[i] == (KeyOf(contexts[i]), contexts[i])
  {
    seq(|contexts|, i requires 0 <= i < |contexts| => (KeyOf(contexts[i]), contexts[i]))
  }

  /** Distinct types and identifiers. */
  ghost predicate Distinct(contexts: seq<Context>) { DistinctKeys(Keyed(contexts)) }

  function FindReference(refs: seq<Reference>, c: Context): Option<string> {
    if refs == [] then None
    else if refs[0].contextType == TypeOf(c) && refs[0].contextId == c.contextId then Some(refs[0].contextRef)
    else FindReference(refs[1..], c)
  }

  function RefOf(c: Context, refs: seq<Reference>, random: Random): string {
    var existing := FindReference(refs, c);
    if existing.Some? then existing.value else random(c)
  }

  /** The contexts in order, each with its reference. */
  function Offered(
    byKey: Order, contexts: seq<Context>, refs: seq<Reference>, random: Random): (r: seq<(Context, string)>)
    ensures |r| == |Sort(byKey, Keyed(contexts))|
    ensures forall n :: 0 <= n < |r| ==>
      r[n] == (Sort(byKey, Keyed(contexts))[n].1, RefOf(Sort(byKey, Keyed(contexts))[n].1, refs, random))
  {
    var sorted := Sort(byKey, Keyed(contexts));
    seq(|sorted|, n requires 0 <= n < |sorted| => (sorted[n].1, RefOf(sorted[n].1, refs, random)))
  }

  function Shots(offered: seq<(Context, string)>): (r: seq<Json>)
    ensures |r| == |offered| && forall n :: 0 <= n < |r| ==> r[n] == Obj(Fields(offered[n].0, offered[n].1))
  {
    seq(|offered|, n requires 0 <= n < |offered| => Obj(Fields(offered[n].0, offered[n].1)))
  }

  function Plain(offered: seq<(Context, string)>, version: int): Json {
    Obj([("contexts", Arr(Shots(offered))), ("identitySecurityVersion", Num(version))])
  }

  function MakeSnapshot(byKey: Order, byName: Order, resolved: Contexts, refs: seq<Reference>, random: Random): Json {
    Stable(byName, Plain(Offered(byKey, resolved.contexts, refs, random), resolved.identityVersion))
  }

  // -------------------------------------------------------- reading it back

  function ReadReference(shot: Json): Reference {
    Reference(TextOf(At(shot, "contextType")), TextOf(At(shot, "contextId")), TextOf(At(shot, "contextRef")))
  }

  function ReadReferences(stored: Json): (r: seq<Reference>)
    ensures |r| == |ItemsOf(At(stored, "contexts"))|
    ensures forall n :: 0 <= n < |r| ==> r[n] == ReadReference(ItemsOf(At(stored, "contexts"))[n])
  {
    var shots := ItemsOf(At(stored, "contexts"));
    seq(|shots|, n requires 0 <= n < |shots| => ReadReference(shots[n]))
  }

  function FindContext(contexts: seq<Context>, contextType: string, contextId: string): (r: Option<Context>)
    ensures r.Some? ==> r.value in contexts && TypeOf(r.value) == contextType && r.value.contextId == contextId
    ensures r.None? ==> forall c :: c in contexts ==> TypeOf(c) != contextType || c.contextId != contextId
  {
    if contexts == [] then None
    else if TypeOf(contexts[0]) == contextType && contexts[0].contextId == contextId then Some(contexts[0])
    else
      assert contexts == [contexts[0]] + contexts[1..];
      FindContext(contexts[1..], contextType, contextId)
  }

  function FindOffered(refs: seq<Reference>, contextRef: string): (r: Option<Reference>)
    ensures r.Some? ==> r.value in refs && r.value.contextRef == contextRef
    ensures r.None? ==> forall x :: x in refs ==> x.contextRef != contextRef
  {
    if refs == [] then None
    else if refs[0].contextRef == contextRef then Some(refs[0])
    else
      assert refs == [refs[0]] + refs[1..];
      FindOffered(refs[1..], contextRef)
  }

  /** The context a reference selects, or none when the snapshot is out of date. */
  function SelectContext(
    byKey: Order, byName: Order, resolved: Contexts, stored: Json, contextRef: string, random: Random): Option<Context>
  {
    var refs := ReadReferences(stored);
    var offered := FindOffered(refs, contextRef);
    if offered.None? then None
    else
      var selected := FindContext(resolved.contexts, offered.value.contextType, offered.value.contextId);
      if selected.None? then None
      else if Print(Stable(byName, MakeSnapshot(byKey, byName, resolved, refs, random)))
              != Print(Stable(byName, stored)) then None
      else selected
  }

  // ------------------------------------------------- one context's snapshot

  lemma FieldsDistinct(c: Context, contextRef: string)
    ensures DistinctKeys(Fields(c, contextRef)) && WellFormed(Obj(Fields(c, contextRef)))
    ensures At(Obj(Fields(c, contextRef)), "contextType") == Str(TypeOf(c))
    ensures At(Obj(Fields(c, contextRef)), "contextId") == Str(c.contextId)
    ensures At(Obj(Fields(c, contextRef)), "contextRef") == Str(contextRef)
  {
    var f := Fields(c, contextRef);
    assert f[0].0 == "contextId" && f[1].0 == "contextType" && f[|f| - 1].0 == "contextRef";
    FieldNames(c, contextRef);
    LookupDistinct(f, 0);
    LookupDistinct(f, 1);
    LookupDistinct(f, |f| - 1);
  }

  lemma FieldNames(c: Context, contextRef: string)
    ensures DistinctKeys(Fields(c, contextRef))
    ensures forall i :: 0 <= i < |Fields(c, contextRef)| ==> Scalar(Fields(c, contextRef)[i].1)
  {
    var f := Fields(c, contextRef);
    if c.Tenant? {
      assert |f[0].0| == 9 && |f[1].0| == 11 && |f[2].0| == 23 && |f[3].0| == 25 && |f[4].0| == 8;
      assert |f[5].0| == 18 && |f[6].0| == 6 && |f[7].0| == 21 && |f[8].0| == 19 && |f[9].0| == 10;
    } else {
      assert |f[0].0| == 9 && |f[1].0| == 11 && |f[2].0| == 23 && |f[3].0| == 25 && |f[4].0| == 20;
      assert |f[5].0| == 23 && f[2].0[0] == 'i' && f[5].0[0] == 'p' && |f[6].0| == 10;
    }
  }

  lemma SameNames(c: Context, r: string, d: Context, q: string)
    requires c.Tenant? == d.Tenant?
    ensures |Fields(c, r)| == |Fields(d, q)|
    ensures forall n :: 0 <= n < |Fields(c, r)| ==> Fields(c, r)[n].0 == Fields(d, q)[n].0
  {
  }

  predicate Scalar(j: Json) { j.Str? || j.Num? }

  /** Scalars under the same names are the same only when equal. */
  lemma ScalarFields(xs: seq<(string, Json)>, ys: seq<(string, Json)>)
    requires |xs| == |ys| && DistinctKeys(xs)
    requires forall n :: 0 <= n < |xs| ==> xs[n].0 == ys[n].0
    requires forall n :: 0 <= n < |xs| ==> Scalar(xs[n].1)
    ensures Same(Obj(xs), Obj(ys)) <==> forall n :: 0 <= n < |xs| ==> xs[n].1 == ys[n].1
  {
    SameFields(xs, ys);
    forall n | 0 <= n < |xs| ensures Same(xs[n].1, ys[n].1) <==> xs[n].1 == ys[n].1 {
      assert Scalar(xs[n].1);
    }
  }

  lemma OtherTypesDiffer(c: Context, r: string, d: Context, q: string)
    requires c.Tenant? != d.Tenant?
    ensures !Same(Obj(Fields(c, r)), Obj(Fields(d, q)))
  {
    var x, y := Obj(Fields(c, r)), Obj(Fields(d, q));
    FieldsDistinct(c, r);
    FieldsDistinct(d, q);
    DifferentPropertyDiffers(x, y, "contextType");
  }

  lemma DifferentPropertyDiffers(x: Json, y: Json, key: string)
    requires x.Obj? && y.Obj? && WellFormed(x) && WellFormed(y) && !Same(At(x, key), At(y, key))
    ensures !Same(x, y)
  {
    if Same(x, y) {
      SameAt(x, y, key);
    }
  }

  /** Two snapshots of contexts agree exactly when they show the same of them, reference included. */
  lemma ShotsAgree(c: Context, r: string, d: Context, q: string)
    ensures Same(Obj(Fields(c, r)), Obj(Fields(d, q))) <==> Shown(c) == Shown(d) && r == q
  {
    if c.Tenant? != d.Tenant? {
      OtherTypesDiffer(c, r, d, q);
    } else {
      FieldNames(c, r);
      SameNames(c, r, d, q);
      ScalarFields(Fields(c, r), Fields(d, q));
      ShownByFields(c, r, d, q);
    }
  }

  lemma ShownByFields(c: Context, r: string, d: Context, q: string)
    requires c.Tenant? == d.Tenant?
    ensures (forall i :: 0 <= i < |Fields(c, r)| ==> Fields(c, r)[i].1 == Fields(d, q)[i].1)
       <==> Shown(c) == Shown(d) && r == q
  {
    var x, y := Fields(c, r), Fields(d, q);
    if forall i :: 0 <= i < |x| ==> x[i].1 == y[i].1 {
      assert x[0].1 == y[0].1 && x[2].1 == y[2].1 && x[3].1 == y[3].1 && x[4].1 == y[4].1 && x[5].1 == y[5].1
        && x[6].1 == y[6].1;
      if c.Tenant? {
        assert x[7].1 == y[7].1 && x[8].1 == y[8].1 && x[9].1 == y[9].1;
      }
    }
  }

  // ------------------------------------------------------------ the whole list

  lemma {:induction false} InsertShown(byKey: Order, x: (string, Context), xs: seq<(string, Context)>)
    ensures ShownOf(Insert(byKey, x, xs)) == Insert(byKey, (x.0, Shown(x.1)), ShownOf(xs))
  {
    if xs != [] && !byKey(x.0, xs[0].0) {
      InsertShown(byKey, x, xs[1..]);
      assert ShownOf(xs)[1..] == ShownOf(xs[1..]);
      assert Insert(byKey, x, xs) == [xs[0]] + Insert(byKey, x, xs[1..]);
    }
  }

  /** Entries with only what a snapshot shows of their contexts. */
  function ShownOf(xs: seq<(string, Context)>): (r: seq<(string, Context)>)
    ensures |r| == |xs| && forall n :: 0 <= n < |r| ==> r[n] == (xs[n].0, Shown(xs[n].1))
  {
    seq(|xs|, n requires 0 <= n < |xs| => (xs[n].0, Shown(xs[n].1)))
  }

  lemma {:induction false} SortShown(byKey: Order, xs: seq<(string, Context)>)
    ensures ShownOf(Sort(byKey, xs)) == Sort(byKey, ShownOf(xs))
  {
    if xs != [] {
      SortShown(byKey, xs[1..]);
      assert ShownOf(xs)[1..] == ShownOf(xs[1..]);
      InsertShown(byKey, xs[0], Sort(byKey, xs[1..]));
    }
  }

  /** The same contexts as far as a snapshot shows them, in any order. */
  ghost predicate SameContexts(a: seq<Context>, b: seq<Context>) {
    forall x :: x in ShownOf(Keyed(a)) <==> x in ShownOf(Keyed(b))
  }

  /** In key order the two lists show the same exactly when they hold the same contexts. */
  lemma SortedShowSame(byKey: Order, a: seq<Context>, b: seq<Context>)
    requires TotalOrder(byKey) && Distinct(a) && Distinct(b)
    ensures ShownOf(Sort(byKey, Keyed(a))) == ShownOf(Sort(byKey, Keyed(b))) <==> SameContexts(a, b)
  {
    SortShown(byKey, Keyed(a));
    SortShown(byKey, Keyed(b));
    SortIsCanonical(byKey, ShownOf(Keyed(a)), ShownOf(Keyed(b)));
  }

  // ------------------------------------------------------- references survive

  function ReferencesOf(offered: seq<(Context, string)>): (r: seq<Reference>)
    ensures |r| == |offered|
    ensures forall n :: 0 <= n < |r| ==> r[n] == Reference(TypeOf(offered[n].0), offered[n].0.contextId, offered[n].1)
  {
    seq(|offered|, n requires 0 <= n < |offered| =>
      Reference(TypeOf(offered[n].0), offered[n].0.contextId, offered[n].1))
  }

  lemma PlainIsWellFormed(offered: seq<(Context, string)>, version: int)
    ensures WellFormed(Plain(offered, version))
    ensures At(Plain(offered, version), "contexts") == Arr(Shots(offered))
  {
    var j := Plain(offered, version);
    assert |j.entries[0].0| == 8 && |j.entries[1].0| == 23;
    forall n | 0 <= n < |offered| ensures WellFormed(Shots(offered)[n]) {
      FieldsDistinct(offered[n].0, offered[n].1);
    }
    LookupDistinct(j.entries, 0);
  }

  /** What is read back from a stored snapshot, whatever the order of its keys. */
  lemma StoredReferences(stored: Json, offered: seq<(Context, string)>, version: int)
    requires WellFormed(stored) && Same(Plain(offered, version), stored)
    ensures ReadReferences(stored) == ReferencesOf(offered)
  {
    PlainIsWellFormed(offered, version);
    SameAt(Plain(offered, version), stored, "contexts");
    var shots := ItemsOf(At(stored, "contexts"));
    WellFormedAt(stored, "contexts");
    forall n | 0 <= n < |offered| ensures ReadReference(shots[n]) == ReferencesOf(offered)[n] {
      assert Same(Shots(offered)[n], shots[n]);
      ReadShot(offered[n].0, offered[n].1, shots[n]);
    }
  }

  lemma WellFormedAt(j: Json, key: string)
    requires WellFormed(j)
    ensures WellFormed(At(j, key))
  {
    if j.Obj? && exists i :: 0 <= i < |j.entries| && j.entries[i].0 == key {
      assert (key, At(j, key)) in j.entries;
      var i :| 0 <= i < |j.entries| && j.entries[i] == (key, At(j, key));
      assert WellFormed(j.entries[i].1);
    }
  }

  lemma ReadShot(c: Context, r: string, shot: Json)
    requires WellFormed(shot) && Same(Obj(Fields(c, r)), shot)
    ensures ReadReference(shot) == Reference(TypeOf(c), c.contextId, r)
  {
    FieldsDistinct(c, r);
    SameAt(Obj(Fields(c, r)), shot, "contextType");
    SameAt(Obj(Fields(c, r)), shot, "contextId");
    SameAt(Obj(Fields(c, r)), shot, "contextRef");
  }

  /** A context that shows what one offered at place `n` does gets that one's reference. */
  lemma {:induction false} ReferenceFound(offered: seq<(Context, string)>, n: nat, c: Context)
    requires n < |offered| && KeyOf(c) == KeyOf(offered[n].0)
    requires forall i, j :: 0 <= i < j < |offered| ==> KeyOf(offered[i].0) != KeyOf(offered[j].0)
    ensures FindReference(ReferencesOf(offered), c) == Some(offered[n].1)
    decreases |offered|
  {
    var refs := ReferencesOf(offered);
    KeyDetermines(c, offered[n].0);
    KeyDetermines(c, offered[0].0);
    if n > 0 {
      assert KeyOf(offered[0].0) != KeyOf(offered[n].0);
      assert refs[1..] == ReferencesOf(offered[1..]);
      ReferenceFound(offered[1..], n - 1, c);
    }
  }

  lemma SortedFromKeyed(byKey: Order, contexts: seq<Context>, n: nat)
    requires n < |Sort(byKey, Keyed(contexts))|
    ensures Sort(byKey, Keyed(contexts))[n] in Keyed(contexts)
  {
    var keyed, sorted := Keyed(contexts), Sort(byKey, Keyed(contexts));
    SortKeeps(byKey, keyed);
    MemberOf(keyed, sorted, sorted[n]);
  }

  lemma KeysOfSorted(byKey: Order, contexts: seq<Context>)
    ensures forall n :: 0 <= n < |Sort(byKey, Keyed(contexts))| ==>
      Sort(byKey, Keyed(contexts))[n].0 == KeyOf(Sort(byKey, Keyed(contexts))[n].1)
  {
    var sorted := Sort(byKey, Keyed(contexts));
    forall n | 0 <= n < |sorted| ensures sorted[n].0 == KeyOf(sorted[n].1) {
      SortedFromKeyed(byKey, contexts, n);
    }
  }

  lemma OfferedKeysDiffer(byKey: Order, contexts: seq<Context>, refs: seq<Reference>, random: Random)
    requires TotalOrder(byKey) && Distinct(contexts)
    ensures var o := Offered(byKey, contexts, refs, random);
            forall i, j :: 0 <= i < j < |o| ==> KeyOf(o[i].0) != KeyOf(o[j].0)
  {
    var sorted := Sort(byKey, Keyed(contexts));
    SortKeeps(byKey, Keyed(contexts));
    DistinctStays(Keyed(contexts), sorted);
    KeysOfSorted(byKey, contexts);
  }

  // ----------------------------------------------------------- the comparison

  ghost predicate AgreeAt(a: seq<(Context, string)>, b: seq<(Context, string)>, n: nat)
    requires n < |a| && n < |b|
  {
    Shown(a[n].0) == Shown(b[n].0) && a[n].1 == b[n].1
  }

  lemma PlainsAgree(a: seq<(Context, string)>, v: int, b: seq<(Context, string)>, u: int)
    ensures Same(Plain(a, v), Plain(b, u)) <==> v == u && |a| == |b| && forall n :: 0 <= n < |a| ==> AgreeAt(a, b, n)
  {
    var x, y := Plain(a, v).entries, Plain(b, u).entries;
    PlainIsWellFormed(a, v);
    SameFields(x, y);
    assert Same(x[1].1, y[1].1) <==> v == u;
    if |a| == |b| {
      forall n | 0 <= n < |a| ensures Same(Shots(a)[n], Shots(b)[n]) <==> AgreeAt(a, b, n) {
        ShotsAgree(a[n].0, a[n].1, b[n].0, b[n].1);
      }
    }
    assert x[0].1 == Arr(Shots(a)) && y[0].1 == Arr(Shots(b));
  }

  /**
    The offer made again from the stored references agrees with the first one exactly when
    the contexts are the same.
   */
  lemma OffersAgree(
    byKey: Order, first: seq<Context>, again: seq<Context>, refs0: seq<Reference>, random0: Random, random1: Random)
    requires TotalOrder(byKey) && Distinct(first) && Distinct(again)
    ensures var a := Offered(byKey, first, refs0, random0);
            var b := Offered(byKey, again, ReferencesOf(a), random1);
            (|b| == |a| && forall n :: 0 <= n < |b| ==> AgreeAt(b, a, n)) <==> SameContexts(first, again)
  {
    var a := Offered(byKey, first, refs0, random0);
    var b := Offered(byKey, again, ReferencesOf(a), random1);
    var x, y := Sort(byKey, Keyed(first)), Sort(byKey, Keyed(again));
    SortedShowSame(byKey, first, again);
    OfferedKeysDiffer(byKey, first, refs0, random0);
    KeysOfSorted(byKey, first);
    KeysOfSorted(byKey, again);
    if |b| == |a| && forall n :: 0 <= n < |b| ==> AgreeAt(b, a, n) {
      forall n | 0 <= n < |x| ensures ShownOf(x)[n] == ShownOf(y)[n] {
        assert AgreeAt(b, a, n);
        ShownKeepsKey(x[n].1, y[n].1);
      }
      assert ShownOf(x) == ShownOf(y);
    }
    if SameContexts(first, again) {
      assert |ShownOf(x)| == |ShownOf(y)|;
      forall n | 0 <= n < |b| ensures AgreeAt(b, a, n) {
        assert ShownOf(x)[n] == ShownOf(y)[n];
        ShownKeepsKey(x[n].1, y[n].1);
        ReferenceFound(a, n, b[n].0);
      }
    }
  }

  lemma ShownKeepsKey(c: Context, d: Context)
    ensures Shown(c) == Shown(d) ==> KeyOf(c) == KeyOf(d) && TypeOf(c) == TypeOf(d) && c.contextId == d.contextId
  {
  }

  /**
    A selection by an offered reference passes exactly when the contexts resolved now are, in
    whatever order, those of the login as far as the snapshot shows them, with the same
    identity version; the order of keys in the stored snapshot plays no part.  The context
    selected then shows what was offered under that reference.
   */
  lemma SelectionPassesExactly(
    byKey: Order, byName: Order, first: Contexts, random0: Random, stored: Json,
    now: Contexts, random1: Random, contextRef: string)
    requires TotalOrder(byKey) && TotalOrder(byName) && Distinct(first.contexts) && Distinct(now.contexts)
    requires WellFormed(stored) && Same(MakeSnapshot(byKey, byName, first, [], random0), stored)
    requires FindOffered(ReadReferences(stored), contextRef).Some?
    ensures var selected := SelectContext(byKey, byName, now, stored, contextRef, random1);
            && (selected.Some? <==>
                  SameContexts(first.contexts, now.contexts) && now.identityVersion == first.identityVersion)
            && (selected.Some? ==> exists c :: c in first.contexts && Shown(c) == Shown(selected.value))
  {
    hide Offered, Plain, ReadReferences, Print, Stable, SameContexts, WellFormed, Same, TotalOrder, Distinct;
    var a := Offered(byKey, first.contexts, [], random0);
    StoredIsPlain(byName, a, first.identityVersion, stored);
    StoredReferences(stored, a, first.identityVersion);
    var refs := ReadReferences(stored);
    var b := Offered(byKey, now.contexts, refs, random1);
    SnapshotsCompare(byName, b, now.identityVersion, a, first.identityVersion, stored);
    OffersAgree(byKey, first.contexts, now.contexts, [], random0, random1);
    if SameContexts(first.contexts, now.contexts) {
      OfferedIsFound(byKey, first.contexts, random0, now.contexts, FindOffered(refs, contextRef).value);
    }
  }

  lemma StoredIsPlain(byName: Order, a: seq<(Context, string)>, version: int, stored: Json)
    requires TotalOrder(byName) && WellFormed(stored) && Same(Stable(byName, Plain(a, version)), stored)
    ensures Same(Plain(a, version), stored)
  {
    var plain := Plain(a, version);
    PlainIsWellFormed(a, version);
    StableKeepsWellFormed(byName, plain);
    StableTwice(byName, plain);
    StableIsCanonical(byName, Stable(byName, plain), stored);
    StableIsCanonical(byName, plain, stored);
  }

  /** The texts compared are equal exactly when the two offers are. */
  lemma SnapshotsCompare(
    byName: Order, b: seq<(Context, string)>, u: int, a: seq<(Context, string)>, v: int, stored: Json)
    requires TotalOrder(byName) && WellFormed(stored) && Same(Plain(a, v), stored)
    ensures Print(Stable(byName, Stable(byName, Plain(b, u)))) == Print(Stable(byName, stored)) <==>
              u == v && |b| == |a| && forall n :: 0 <= n < |b| ==> AgreeAt(b, a, n)
  {
    PlainIsWellFormed(a, v);
    PlainIsWellFormed(b, u);
    StableTwice(byName, Plain(b, u));
    TextDetermines(Stable(byName, Plain(b, u)), Stable(byName, stored));
    StableIsCanonical(byName, Plain(b, u), stored);
    SameIsTransitive(byName, Plain(b, u), Plain(a, v), stored);
    PlainsAgree(b, u, a, v);
  }

  /** With the same contexts every offered one is found again, showing the same. */
  lemma OfferedIsFound(byKey: Order, first: seq<Context>, random0: Random, now: seq<Context>, r: Reference)
    requires SameContexts(first, now) && Distinct(first) && r in ReferencesOf(Offered(byKey, first, [], random0))
    ensures var selected := FindContext(now, r.contextType, r.contextId);
            selected.Some? && exists c :: c in first && Shown(c) == Shown(selected.value)
  {
    var a, sorted := Offered(byKey, first, [], random0), Sort(byKey, Keyed(first));
    var n :| 0 <= n < |a| && ReferencesOf(a)[n] == r;
    SortKeeps(byKey, Keyed(first));
    SameElements(Keyed(first), sorted);
    assert sorted[n] in sorted && sorted[n] in Keyed(first);
    var c := sorted[n].1;
    ShownAmong(first, c);
    ShownAmong2(now, c, KeyOf(c));
    var selected := FindContext(now, r.contextType, r.contextId);
    if selected.Some? {
      ShownAmong(now, selected.value);
      ShownAmong2(first, selected.value, KeyOf(selected.value));
    }
  }

  lemma ShownAmong(contexts: seq<Context>, c: Context)
    requires c in contexts
    ensures (KeyOf(c), Shown(c)) in ShownOf(Keyed(contexts))
  {
    var i :| 0 <= i < |contexts| && contexts[i] == c;
    assert ShownOf(Keyed(contexts))[i] == (KeyOf(c), Shown(c));
  }

  lemma ShownAmong2(contexts: seq<Context>, c: Context, key: string)
    requires (key, Shown(c)) in ShownOf(Keyed(contexts))
    ensures exists d :: d in contexts && Shown(d) == Shown(c) && TypeOf(d) == TypeOf(c) && d.contextId == c.contextId
  {
    var shown := ShownOf(Keyed(contexts));
    var i :| 0 <= i < |shown| && shown[i] == (key, Shown(c));
    ShownKeepsKey(contexts[i], c);
    assert contexts[i] in contexts;
  }
}
