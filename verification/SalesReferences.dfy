/** What the unique index on delivery lines means: one line per row, and no delivery of a repeated item. */
module SalesReferences {
  import opened Wrappers
  import opened InventoryTables
  import opened InventorySpec
  import opened InventoryBySource
  import opened SalesSpec
  import opened SalesDeliveries

  /** Two lines of one tenant never refer to the same row. */
  ghost predicate OneLinePerRow(ds: seq<Delivery>) {
    forall d: nat, e: nat, n: nat, m: nat :: Refers(ds, d, n) && Refers(ds, e, m) && (d != e || n != m) ==>
      Differ(ds, d, n, e, m)
  }

  predicate Refers(ds: seq<Delivery>, d: nat, n: nat) {
    d < |ds| && n < |ds[d].lines| && ds[d].lines[n].reservation.Some?
  }

  predicate Differ(ds: seq<Delivery>, d: nat, n: nat, e: nat, m: nat)
    requires Refers(ds, d, n) && Refers(ds, e, m)
  {
    ds[d].scope.tenant == ds[e].scope.tenant ==> ds[d].lines[n].reservation != ds[e].lines[m].reservation
  }

  lemma LinkKeepsOne(ds: seq<Delivery>, id: nat, n: nat, line: DeliveryLine)
    requires id < |ds| && n < |ds[id].lines| && line.reservation.Some? && OneLinePerRow(ds)
    requires !RowTaken(ds, id, n, line.reservation.value)
    ensures OneLinePerRow(WithLine(ds, id, n, line))
  {
    var ds' := WithLine(ds, id, n, line);
    forall d: nat, e: nat, k: nat, m: nat | Refers(ds', d, k) && Refers(ds', e, m) && (d != e || k != m)
      ensures Differ(ds', d, k, e, m)
    {
      if d == id && k == n {
        assert ds'[e].lines[m] == ds[e].lines[m] && ds'[e].scope == ds[e].scope;
      } else if e == id && m == n {
        assert ds'[d].lines[k] == ds[d].lines[k] && ds'[d].scope == ds[d].scope;
      } else {
        assert Refers(ds, d, k) && Refers(ds, e, m);
        assert Differ(ds, d, k, e, m);
      }
    }
  }

  lemma {:induction false} AttachKeepsOne(ds: seq<Delivery>, id: nat, linked: seq<DeliveryLine>, n: nat)
    requires id < |ds| && |linked| == |ds[id].lines| && n <= |linked| && AllLinked(linked) && OneLinePerRow(ds)
    ensures Attach(ds, id, linked, n).Some? ==> OneLinePerRow(Attach(ds, id, linked, n).value)
    decreases |linked| - n
  {
    if n < |linked| && !RowTaken(ds, id, n, linked[n].reservation.value) {
      LinkKeepsOne(ds, id, n, linked[n]);
      AttachKeepsOne(WithLine(ds, id, n, linked[n]), id, linked, n + 1);
    }
  }

  /** Deliveries that differ in status and version only, and possibly new ones without references. */
  lemma SameLinesKeepOne(ds: seq<Delivery>, ds': seq<Delivery>)
    requires OneLinePerRow(ds)
    requires forall d: nat, n: nat :: Refers(ds', d, n) ==>
      Refers(ds, d, n) && ds'[d].lines == ds[d].lines && ds'[d].scope == ds[d].scope
    ensures OneLinePerRow(ds')
  {
    forall d: nat, e: nat, n: nat, m: nat | Refers(ds', d, n) && Refers(ds', e, m) && (d != e || n != m)
      ensures Differ(ds', d, n, e, m)
    {
      assert Differ(ds, d, n, e, m);
    }
  }

  lemma LinkedKeepsOne(ds: seq<Delivery>, id: nat, linked: seq<DeliveryLine>, version: nat)
    requires id < |ds| && |linked| == |ds[id].lines| && AllLinked(linked) && OneLinePerRow(ds)
    requires Attach(ds, id, linked, 0).Some?
    ensures OneLinePerRow(ds[id := ds[id].(lines := linked, version := version)])
  {
    AttachKeepsOne(ds, id, linked, 0);
    assert ds[id].lines[..0] + linked[0..] == linked;
    SameLinesKeepOne(Attach(ds, id, linked, 0).value, ds[id := ds[id].(lines := linked, version := version)]);
  }

  lemma OpenKeepsOne(w: World, scope: Scope, order: nat, key: string, allowReplay: bool)
    requires OneLinePerRow(w.deliveries) && OpenDelivery(w, scope, order, key, allowReplay).Made?
    ensures OneLinePerRow(OpenDelivery(w, scope, order, key, allowReplay).world.deliveries)
  {
    SameLinesKeepOne(w.deliveries, OpenDelivery(w, scope, order, key, allowReplay).world.deliveries);
  }

  lemma CreateKeepsOne(w: World, scope: Scope, order: nat, key: string, allowReplay: bool)
    requires OneLinePerRow(w.deliveries) && CreateDelivery(w, scope, order, key, allowReplay).Made?
    ensures OneLinePerRow(CreateDelivery(w, scope, order, key, allowReplay).world.deliveries)
  {
    var started := OpenDelivery(w, scope, order, key, allowReplay);
    var ds, id := started.world.deliveries, started.id;
    OpenKeepsOne(w, scope, order, key, allowReplay);
    var ids := SourceRows(w.tables.reservations, OrderSource(scope, order));
    LinkedKeepsOne(ds, id, LinkLines(w.tables.reservations, ids, ds[id].lines), ds[id].version + 1);
  }

  lemma ActKeepsOne(w: World, c: Catalogue, a: Action)
    requires OneLinePerRow(w.deliveries)
    ensures OneLinePerRow(Act(w, c, a).deliveries)
  {
    if a.NewDelivery? {
      if CreateDelivery(w, a.scope, a.order, a.key, a.allowReplay).Made? {
        CreateKeepsOne(w, a.scope, a.order, a.key, a.allowReplay);
      }
    } else {
      MovesKeepLines(w, c, a);
      var ds' := Act(w, c, a).deliveries;
      SameLinesKeepOne(w.deliveries, ds');
    }
  }

  lemma MovesKeepLines(w: World, c: Catalogue, a: Action)
    requires !a.NewDelivery?
    ensures var ds := Act(w, c, a).deliveries;
            |ds| == |w.deliveries|
            && forall d :: 0 <= d < |ds| ==>
                 ds[d].lines == w.deliveries[d].lines && ds[d].scope == w.deliveries[d].scope
  {
  }

  lemma {:induction false} EveryRunKeepsOne(w: World, actions: seq<(Catalogue, Action)>)
    requires OneLinePerRow(w.deliveries)
    ensures OneLinePerRow(Play(w, actions).deliveries)
    decreases |actions|
  {
    if actions != [] {
      ActKeepsOne(w, actions[0].0, actions[0].1);
      EveryRunKeepsOne(Act(w, actions[0].0, actions[0].1), actions[1..]);
    }
  }

  /** Along every run, admissible or not, two delivery lines of one tenant refer to different rows. */
  lemma RowsAreDeliveredOnce(actions: seq<(Catalogue, Action)>, d: nat, n: nat, e: nat, m: nat)
    requires var ds := Play(World(EMPTY, [], []), actions).deliveries;
      Refers(ds, d, n) && Refers(ds, e, m) && (d != e || n != m)
    ensures Differ(Play(World(EMPTY, [], []), actions).deliveries, d, n, e, m)
  {
    EveryRunKeepsOne(World(EMPTY, [], []), actions);
  }

  // --------------------------------------------------------- repeated items

  lemma {:induction false} SameRowTwice(ds: seq<Delivery>, id: nat, linked: seq<DeliveryLine>, k: nat, m: nat, n: nat)
    requires id < |ds| && |linked| == |ds[id].lines| && AllLinked(linked) && m < n < |linked| && k <= n
    requires linked[m].reservation == linked[n].reservation
    requires k > m ==> ds[id].lines[m] == linked[m]
    ensures Attach(ds, id, linked, k).None?
    decreases n - k
  {
    if k == n {
      assert ds[id].lines[m].reservation == Some(linked[n].reservation.value);
    } else if !RowTaken(ds, id, k, linked[k].reservation.value) {
      SameRowTwice(WithLine(ds, id, k, linked[k]), id, linked, k + 1, m, n);
    }
  }

  /** A creation always throws when two lines of the order name one item: both would be linked to the item's one row. */
  lemma RepeatedItemNeverDelivers(w: World, scope: Scope, order: nat, key: string, allowReplay: bool, m: nat, n: nat)
    requires FindDelivery(w.deliveries, scope, key, order).None? && order < |w.orders|
    requires m < n < |w.orders[order].lines| && w.orders[order].lines[m].item == w.orders[order].lines[n].item
    ensures CreateDelivery(w, scope, order, key, allowReplay).Refused?
  {
    var started := OpenDelivery(w, scope, order, key, allowReplay);
    if started.Made? {
      var ds, id := started.world.deliveries, started.id;
      assert ds[id].lines == CopyLines(w.orders[order].lines);
      var rows := w.tables.reservations;
      var ids := SourceRows(rows, OrderSource(scope, order));
      if AllMatched(rows, ids, ds[id].lines) {
        var linked := LinkLines(rows, ids, ds[id].lines);
        assert linked[m] == LinkLine(rows, ids, ds[id].lines[m]) && linked[n] == LinkLine(rows, ids, ds[id].lines[n]);
        SameRowTwice(ds, id, linked, 0, m, n);
      }
    }
  }
}
