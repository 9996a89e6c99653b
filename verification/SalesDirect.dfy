/**
  Reservations made directly, through the inventory's own call.  Its source's type is any text, so it
  can name an order: exactly when such a call leaves an unmarked order with a RESERVED row.
 */
module SalesDirect {
  import opened Wrappers
  import opened InventoryTables
  import opened InventorySpec
  import opened InventoryBySource
  import opened SalesSpec
  import opened SalesDeliveries
  import opened SalesRows
  import opened SalesConcurrency
  import opened SalesSafety
  import opened SalesOrdersSafety
  import opened SalesRuns
  import opened InventorySolo
  import I = InventoryConcurrency

  /** The source names an order that is not marked reserved. */
  predicate NamesUnmarked(orders: seq<Order>, source: Source) {
    && OfAnOrder(source) && source.document < |orders|
    && orders[source.document].scope == source.scope && !orders[source.document].reserved
  }

  ghost predicate AllOrdersOk(rows: seq<Option<Reservation>>, orders: seq<Order>) {
    forall id :: 0 <= id < |orders| ==> OrderOk(rows, orders[id], id)
  }

  /** What a direct reservation adds to the rows, if it goes through and is no repetition. */
  predicate AddsRow(t: Tables, cat: Catalogue, r: Request) {
    r.Reserve? && Apply(t, cat, r).reservations != t.reservations
  }

  /**
    A direct reservation leaves every order claiming only what its mark says exactly when it adds no
    row or its source names no order that is not marked reserved.
   */
  lemma DirectReserveExactly(t: Tables, orders: seq<Order>, cat: Catalogue, r: Request)
    requires r.Reserve? && AllOrdersOk(t.reservations, orders)
    ensures AllOrdersOk(Apply(t, cat, r).reservations, orders) <==>
      !AddsRow(t, cat, r) || !NamesUnmarked(orders, r.source)
  {
    var rows, rows' := t.reservations, Apply(t, cat, r).reservations;
    if AddsRow(t, cat, r) {
      var made := Reservation(r.source, r.warehouse, r.item, r.quantity, RESERVED);
      assert rows' == rows + [Some(made)];
      if NamesUnmarked(orders, r.source) {
        assert Claims(rows'[|rows|], OrderSource(orders[r.source.document].scope, r.source.document));
        assert !OrderOk(rows', orders[r.source.document], r.source.document);
      } else {
        forall id | 0 <= id < |orders| ensures OrderOk(rows', orders[id], id) {
          assert OrderOk(rows, orders[id], id);
        }
      }
    }
  }

  /**
    And at the commit of a direct transaction that overlaps others: an order that is right by then
    stays so exactly when it is marked by then or the transaction adds no claim of it.
   */
  lemma DirectCommitExactly(s: Sales, t: TxId, id: nat)
    requires t !in s.txs && t in s.inventory.txs && s.inventory.txs[t].calls == []
    requires id < |s.orders| && OrderOk(Committed(s), s.orders[id], id)
    ensures var s' := Happen(s, Inventory(I.Statement(t)));
            && s'.orders == s.orders
            && (OrderOk(Committed(s'), s.orders[id], id) <==>
                  s.orders[id].reserved
                    || NoNewClaims(Committed(s), RowsSeen(s, t), OrderSource(s.orders[id].scope, id)))
  {
    var s' := Happen(s, Inventory(I.Statement(t)));
    assert Committed(s') == RowsSeen(s, t);
    var source := OrderSource(s.orders[id].scope, id);
    if !s.orders[id].reserved && NoNewClaims(Committed(s), RowsSeen(s, t), source) {
      forall i | 0 <= i < |Committed(s')| ensures !Claims(Committed(s')[i], source) {
        assert i < |Committed(s)| ==> !Claims(Committed(s)[i], source);
      }
    }
  }

  // ------------------------------------------------------------- a run that does

  /** The statements of a direct transaction, one after the other. */
  lemma {:induction false} StatementsLead(from: Sales, rule: Rule, s: Sales, t: TxId, n: nat)
    requires Leads(from, rule, s) && t !in s.txs
    ensures Leads(from, rule, s.(inventory := Statements(s.inventory, t, n)))
    decreases n
  {
    hide Leads;
    if n == 0 {
      assert s == s.(inventory := Statements(s.inventory, t, 0));
    } else {
      StatementsLead(from, rule, s, t, n - 1);
      var s1 := s.(inventory := Statements(s.inventory, t, n - 1));
      LeadsOn(from, rule, s1, Inventory(I.Statement(t)), Happen(s1, Inventory(I.Statement(t))));
      assert Happen(s1, Inventory(I.Statement(t))) == s.(inventory := Statements(s.inventory, t, n));
    }
  }

  lemma DirectCallBegins(w: World, rule: Rule, t: TxId, cat: Catalogue, r: Request) returns (s: Sales)
    requires KeysMatch([r]) && (rule.apart ==> NoOrderReserves([r]))
    ensures Leads(From(w), rule, s)
    ensures s == From(w).(inventory := I.System(w.tables, cat, map[t := I.Tx([r], I.Ready, map[], map[], [])], map[]))
  {
    hide Leads;
    LeadsNowhere(From(w), rule);
    var s0 := Happen(From(w), Inventory(I.Recatalogue(cat)));
    LeadsOn(From(w), rule, From(w), Inventory(I.Recatalogue(cat)), s0);
    s := Happen(s0, Inventory(I.Begin(t, [r])));
    LeadsOn(From(w), rule, s0, Inventory(I.Begin(t, [r])), s);
  }

  /** A direct call that does not throw, run alone: it commits what the call's function says. */
  lemma DirectCallRuns(w: World, rule: Rule, t: TxId, cat: Catalogue, r: Request) returns (end: Sales)
    requires KeysMatch([r]) && !Fails(w.tables, cat, r) && (rule.apart ==> NoOrderReserves([r]))
    ensures Leads(From(w), rule, end) && end.orders == w.orders && end.inventory.committed == Apply(w.tables, cat, r)
  {
    hide Leads, Apply, Fails, Statements;
    var s1 := DirectCallBegins(w, rule, t, cat, r);
    var tx := I.Tx([r], I.Ready, map[], map[], []);
    ViewOfNothing(w.tables, tx);
    SoloCallRefines(s1.inventory, t, w.tables, cat, tx);
    var n: nat :| Settled(Statements(s1.inventory, t, n), t, w.tables, cat, tx);
    StatementsLead(From(w), rule, s1, t, n);
    var s2 := s1.(inventory := Statements(s1.inventory, t, n));
    end := Happen(s2, Inventory(I.Statement(t)));
    LeadsOn(From(w), rule, s2, Inventory(I.Statement(t)), end);
  }

  /**
    From every world, with every version honest and no cancelled order marked: a direct reservation
    that names an order not marked reserved, a CANCELLED one for instance, leaves the order as it is
    with a RESERVED row.
   */
  lemma DirectReserveClaims(w: World, t: TxId, cat: Catalogue, r: Request) returns (end: Sales)
    requires AddsRow(w.tables, cat, r) && NamesUnmarked(w.orders, r.source)
    ensures Leads(From(w), Rule(NO_ONE, true, false), end) && end.orders == w.orders
    ensures var id := r.source.document;
            && !OrderOk(Committed(end), w.orders[id], id)
            && exists i :: 0 <= i < |Committed(end)| && Claims(Committed(end)[i], OrderSource(w.orders[id].scope, id))
  {
    hide Leads;
    end := DirectCallRuns(w, Rule(NO_ONE, true, false), t, cat, r);
    assert Claims(Committed(end)[|w.tables.reservations|], r.source);
  }
}
