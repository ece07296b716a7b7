/** Storing an order in the SQL database: several statements in one transaction, any of which may fail. */
module OrderTransaction {
  import opened Wrappers
  import opened OrderModel

  datatype HeaderRow = HeaderRow(id: int, userId: int, restaurantId: int, restaurantName: string, status: Status,
                                 totalPrice: real, delivery: Delivery)

  datatype ItemRow = ItemRow(orderId: int, foodId: int, foodName: string, foodPrice: real, quantity: int)

  datatype Tables = Tables(orders: seq<HeaderRow>, items: seq<ItemRow>)

  function Header(id: int, o: Order): HeaderRow {
    HeaderRow(id, o.customerId, o.restaurantId, o.restaurantName,
              if o.status == OtherStatus("") then Pending else o.status, o.totalPrice, o.delivery)
  }

  function Row(id: int, i: OrderItem): ItemRow { ItemRow(id, i.foodId, i.foodName, i.unitPrice, i.quantity) }

  function Rows(id: int, items: seq<OrderItem>): (r: seq<ItemRow>)
    ensures |r| == |items| && forall i :: 0 <= i < |items| ==> r[i] == Row(id, items[i])
  {
    seq(|items|, i requires 0 <= i < |items| => Row(id, items[i]))
  }

  /** The tables after an order has been stored whole under `id`. */
  function Inserted(t: Tables, id: int, o: Order): Tables {
    Tables(t.orders + [Header(id, o)], t.items + Rows(id, o.items))
  }

  /** A connection; `fails(n)` says whether the n-th request sent to the server fails. A failed request changes nothing,
      and generated ids are never reused. */
  class Database {
    const fails: nat -> bool
    var connected: bool
    var committed: Tables
    var open: Option<Tables>
    var nextId: int
    var sent: nat
    var rollbackFailed: bool

    constructor (fails: nat -> bool, connected: bool)
      ensures this.fails == fails && this.connected == connected && sent == 0
      ensures committed == Tables([], []) && open.None? && nextId == 1 && !rollbackFailed
    {
      this.fails := fails;
      this.connected := connected;
      committed, open, nextId, sent, rollbackFailed := Tables([], []), None, 1, 0, false;
    }

    /** START TRANSACTION */
    method Start() returns (ok: bool)
      requires open.None?
      modifies `open, `sent
      ensures sent == old(sent) + 1 && ok == !fails(old(sent))
      ensures open == if ok then Some(committed) else None
    {
      ok := !fails(sent);
      sent := sent + 1;
      if ok {
        open := Some(committed);
      }
    }

    method Rollback()
      modifies `open, `sent, `rollbackFailed
      ensures sent == old(sent) + 1
      ensures rollbackFailed == (old(rollbackFailed) || fails(old(sent)))
      ensures open == if fails(old(sent)) then old(open) else None
    {
      if fails(sent) {
        rollbackFailed := true;
      } else {
        open := None;
      }
      sent := sent + 1;
    }

    method Commit() returns (ok: bool)
      requires open.Some?
      modifies `open, `sent, `committed
      ensures sent == old(sent) + 1 && ok == !fails(old(sent))
      ensures committed == if ok then old(open).value else old(committed)
      ensures open == if ok then None else old(open)
    {
      ok := !fails(sent);
      sent := sent + 1;
      if ok {
        committed := open.value;
        open := None;
      }
    }

    /** A request that has no effect of its own: preparing a statement or binding its parameters. */
    method Request() returns (ok: bool)
      modifies `sent
      ensures sent == old(sent) + 1 && ok == !fails(old(sent))
    {
      ok := !fails(sent);
      sent := sent + 1;
    }

    method ExecuteHeader(o: Order) returns (ok: bool, id: int)
      requires open.Some?
      modifies `open, `sent, `nextId
      ensures sent == old(sent) + 1 && ok == !fails(old(sent))
      ensures ok ==> id == old(nextId) && nextId == old(nextId) + 1
      ensures !ok ==> nextId == old(nextId) && open == old(open)
      ensures ok ==> open == Some(old(open).value.(orders := old(open).value.orders + [Header(id, o)]))
    {
      ok := !fails(sent);
      sent := sent + 1;
      id := 0;
      if ok {
        id := nextId;
        nextId := nextId + 1;
        open := Some(open.value.(orders := open.value.orders + [Header(id, o)]));
      }
    }

    method ExecuteItem(row: ItemRow) returns (ok: bool)
      requires open.Some?
      modifies `open, `sent
      ensures sent == old(sent) + 1 && ok == !fails(old(sent))
      ensures open == if ok then Some(old(open).value.(items := old(open).value.items + [row])) else old(open)
    {
      ok := !fails(sent);
      sent := sent + 1;
      if ok {
        open := Some(open.value.(items := open.value.items + [row]));
      }
    }

    /** All or nothing, and nothing exactly when some request on the way fails. */
    method CreateOrder(order: Order) returns (id: Option<int>)
      requires open.None?
      modifies `open, `sent, `committed, `nextId, `rollbackFailed
      ensures id.Some? <==> connected && AllSucceed(fails, old(sent), 5 + 3 * |order.items|)
      ensures id.Some? ==> id.value == old(nextId) && committed == Inserted(old(committed), id.value, order)
      ensures id.None? ==> committed == old(committed)
      ensures old(nextId) <= nextId && (id.Some? ==> nextId == old(nextId) + 1)
      ensures rollbackFailed || open.None?
      ensures rollbackFailed ==> old(rollbackFailed) || (id.None? && open.Some?)
    {
      if !connected {
        return None;
      }
      var ok := Start();
      if !ok {
        assert fails(old(sent) + 0);
        return None;
      }
      ok := Request();
      if !ok {
        assert fails(old(sent) + 1);
        Rollback();
        return None;
      }
      ok := Request();
      if !ok {
        assert fails(old(sent) + 2);
        Rollback();
        return None;
      }
      var newId;
      ok, newId := ExecuteHeader(order);
      if !ok {
        assert fails(old(sent) + 3);
        Rollback();
        return None;
      }
      ok := InsertItems(newId, order.items);
      if !ok {
        assert exists p: nat :: old(sent) <= p < old(sent) + 5 + 3 * |order.items| && fails(p);
        Rollback();
        return None;
      }
      ok := Commit();
      if !ok {
        assert fails(old(sent) + (4 + 3 * |order.items|));
        Rollback();
        return None;
      }
      id := Some(newId);
    }

    /** Any number of calls on a fresh connection, as long as no rollback fails: whatever else fails and when, every
        order reported as stored reads back as its one header and exactly its lines, and failures leave no orphans. */
    method CreateOrders(orders: seq<Order>) returns (attempts: seq<Attempt>)
      requires open.None? && committed == Tables([], []) && !rollbackFailed
      modifies `open, `sent, `committed, `nextId, `rollbackFailed
      ensures |attempts| <= |orders| && (|attempts| < |orders| ==> rollbackFailed)
      ensures forall k :: 0 <= k < |attempts| ==> attempts[k].order == orders[k]
      ensures FreshIds(attempts) && committed == After(attempts)
      ensures forall k :: 0 <= k < |attempts| && attempts[k].id.Some? ==> ReadsBack(committed, attempts[k])
      ensures forall id :: (forall k :: 0 <= k < |attempts| ==> attempts[k].id != Some(id)) ==> Traceless(committed, id)
    {
      attempts := [];
      while |attempts| < |orders| && !rollbackFailed
        invariant |attempts| <= |orders| && (rollbackFailed || open.None?)
        invariant forall k :: 0 <= k < |attempts| ==> attempts[k].order == orders[k]
        invariant forall k :: 0 <= k < |attempts| && attempts[k].id.Some? ==> attempts[k].id.value < nextId
        invariant FreshIds(attempts) && committed == After(attempts)
        decreases |orders| - |attempts|
      {
        ghost var before := attempts;
        var id := CreateOrder(orders[|attempts|]);
        attempts := attempts + [Attempt(orders[|attempts|], id)];
        assert attempts[..|before|] == before;
      }
      forall k | 0 <= k < |attempts| && attempts[k].id.Some?
        ensures ReadsBack(committed, attempts[k])
      {
        ReadBack(attempts, k);
      }
      forall id | forall k :: 0 <= k < |attempts| ==> attempts[k].id != Some(id)
        ensures Traceless(committed, id)
      {
        UnusedId(attempts, id);
      }
    }

    /** One prepare, bind and execute per line, stopping at the first failure. */
    method InsertItems(newId: int, items: seq<OrderItem>) returns (ok: bool)
      requires open.Some?
      modifies `open, `sent
      ensures open.Some? && open.value.orders == old(open).value.orders
      ensures ok <==> AllSucceed(fails, old(sent), 3 * |items|)
      ensures ok ==> sent == old(sent) + 3 * |items|
                     && open.value.items == old(open).value.items + Rows(newId, items)
    {
      ghost var rows := Rows(newId, items);
      ghost var before := open.value;
      ok := true;
      for i := 0 to |items|
        invariant sent == old(sent) + 3 * i && AllSucceed(fails, old(sent), 3 * i)
        invariant open.Some? && open.value.orders == before.orders && open.value.items == before.items + rows[..i]
      {
        ok := Request();
        if !ok {
          assert fails(old(sent) + 3 * i);
          return;
        }
        ok := Request();
        if !ok {
          assert fails(old(sent) + (3 * i + 1));
          return;
        }
        ok := ExecuteItem(Row(newId, items[i]));
        if !ok {
          assert fails(old(sent) + (3 * i + 2));
          return;
        }
        assert rows[..i + 1] == rows[..i] + [rows[i]];
      }
      assert rows[..|items|] == rows;
    }
  }

  predicate AllSucceed(fails: nat -> bool, from: nat, n: nat) {
    forall p: nat :: from <= p < from + n ==> !fails(p)
  }

  // ---------- what the tables hold after any sequence of attempts ----------

  /** One attempt as its contract describes it: the order, and the id it was stored under, if it was. */
  datatype Attempt = Attempt(order: Order, id: Option<int>)

  function After(attempts: seq<Attempt>): Tables {
    if attempts == [] then Tables([], [])
    else
      var t, a := After(attempts[..|attempts| - 1]), attempts[|attempts| - 1];
      if a.id.Some? then Inserted(t, a.id.value, a.order) else t
  }

  /** Stored ids increase from attempt to attempt, as `CreateOrders` shows them to do. */
  predicate FreshIds(attempts: seq<Attempt>) {
    forall i, j :: 0 <= i < j < |attempts| && attempts[i].id.Some? && attempts[j].id.Some? ==>
      attempts[i].id.value < attempts[j].id.value
  }

  /** `SELECT ... FROM order_items WHERE order_id = id ORDER BY id` */
  function LinesOf(items: seq<ItemRow>, id: int): seq<ItemRow> {
    if items == [] then []
    else LinesOf(items[..|items| - 1], id) + (if items[|items| - 1].orderId == id then [items[|items| - 1]] else [])
  }

  function HeadersOf(orders: seq<HeaderRow>, id: int): seq<HeaderRow> {
    if orders == [] then []
    else HeadersOf(orders[..|orders| - 1], id) + (if orders[|orders| - 1].id == id then [orders[|orders| - 1]] else [])
  }

  /** The one header holds the order's fields, a missing status having become Pending, and the lines its items' fields,
      in order. */
  predicate ReadsBack(t: Tables, a: Attempt)
    requires a.id.Some?
  {
    var headers, lines := HeadersOf(t.orders, a.id.value), LinesOf(t.items, a.id.value);
    |headers| == 1 && HoldsOrder(headers[0], a.id.value, a.order)
    && |lines| == |a.order.items|
    && forall i :: 0 <= i < |lines| ==> HoldsItem(lines[i], a.id.value, a.order.items[i])
  }

  predicate HoldsOrder(h: HeaderRow, id: int, o: Order) {
    h.id == id && h.userId == o.customerId && h.restaurantId == o.restaurantId && h.restaurantName == o.restaurantName
    && h.totalPrice == o.totalPrice && h.delivery == o.delivery
    && (o.status == OtherStatus("") ==> h.status == Pending) && (o.status != OtherStatus("") ==> h.status == o.status)
  }

  predicate HoldsItem(r: ItemRow, id: int, i: OrderItem) {
    r.orderId == id && r.foodId == i.foodId && r.foodName == i.foodName && r.foodPrice == i.unitPrice
    && r.quantity == i.quantity
  }

  /** The same in terms of the rows that were inserted. */
  predicate HoldsRows(t: Tables, a: Attempt)
    requires a.id.Some?
  {
    HeadersOf(t.orders, a.id.value) == [Header(a.id.value, a.order)]
    && LinesOf(t.items, a.id.value) == Rows(a.id.value, a.order.items)
  }

  predicate Traceless(t: Tables, id: int) { HeadersOf(t.orders, id) == [] && LinesOf(t.items, id) == [] }

  lemma {:induction false} LinesConcat(s: seq<ItemRow>, t: seq<ItemRow>, id: int)
    ensures LinesOf(s + t, id) == LinesOf(s, id) + LinesOf(t, id)
  {
    if t == [] {
      assert s + t == s;
    } else {
      assert (s + t)[..|s + t| - 1] == s + t[..|t| - 1];
      LinesConcat(s, t[..|t| - 1], id);
    }
  }

  lemma {:induction false} LinesOfRows(id: int, items: seq<OrderItem>, other: int)
    ensures LinesOf(Rows(id, items), other) == if id == other then Rows(id, items) else []
  {
    if items != [] {
      var n := |items| - 1;
      assert Rows(id, items)[..n] == Rows(id, items[..n]);
      LinesOfRows(id, items[..n], other);
    }
  }

  lemma HeadersAppend(s: seq<HeaderRow>, h: HeaderRow, id: int)
    ensures HeadersOf(s + [h], id) == HeadersOf(s, id) + (if h.id == id then [h] else [])
  {
    assert (s + [h])[..|s|] == s;
  }

  lemma InsertedLines(t: Tables, id: int, o: Order, other: int)
    ensures var t' := Inserted(t, id, o);
      HeadersOf(t'.orders, other) == HeadersOf(t.orders, other) + (if id == other then [Header(id, o)] else [])
      && LinesOf(t'.items, other) == LinesOf(t.items, other) + (if id == other then Rows(id, o.items) else [])
  {
    hide LinesOf, HeadersOf, Rows;
    LinesConcat(t.items, Rows(id, o.items), other);
    LinesOfRows(id, o.items, other);
    HeadersAppend(t.orders, Header(id, o), other);
  }

  /** Whatever fails and when, each stored order has one header and reads back exactly its lines, in order. */
  lemma {:induction false} ReadBack(attempts: seq<Attempt>, k: nat)
    requires FreshIds(attempts) && k < |attempts| && attempts[k].id.Some?
    ensures HoldsRows(After(attempts), attempts[k]) && ReadsBack(After(attempts), attempts[k])
  {
    hide LinesOf, HeadersOf, Rows, Inserted;
    var n := |attempts| - 1;
    var init, last := attempts[..n], attempts[n];
    if last.id.Some? {
      InsertedLines(After(init), last.id.value, last.order, attempts[k].id.value);
    }
    if k < n {
      ReadBack(init, k);
      if last.id.Some? {
        assert attempts[k].id.value < last.id.value;
        var header := Header(attempts[k].id.value, attempts[k].order);
        assert [header] + [] == [header];
        var rows := Rows(attempts[k].id.value, attempts[k].order.items);
        assert rows + [] == rows;
      }
    } else {
      UnusedId(init, last.id.value);
      assert [] + Rows(last.id.value, last.order.items) == Rows(last.id.value, last.order.items);
    }
  }

  /** An id that no attempt was stored under has neither header nor lines: failures leave no orphans. */
  lemma {:induction false} UnusedId(attempts: seq<Attempt>, id: int)
    requires forall i :: 0 <= i < |attempts| ==> attempts[i].id != Some(id)
    ensures Traceless(After(attempts), id)
  {
    if attempts != [] {
      hide LinesOf, HeadersOf, Rows, Inserted;
      var init, last := attempts[..|attempts| - 1], attempts[|attempts| - 1];
      UnusedId(init, id);
      if last.id.Some? {
        InsertedLines(After(init), last.id.value, last.order, id);
      }
    } else {
      assert After([]) == Tables([], []);
    }
  }
}
