/** The admin orders screen (src/components/admin/OrdersTab.tsx): the status
    update with its stock decrement against the products table, and the
    status and search filter. */
module OrdersTab {
  import opened Wrappers
  import opened Seqs
  import opened Text

  datatype Status = Pending | Confirmed | Shipped | Delivered | Cancelled

  /** A line of an order; `productId` is "" when the line has no product. */
  datatype OrderItem = OrderItem(productId: string, productName: string, quantity: int, price: int)

  /** An order; `customerEmail` is "" when absent and `items` is [] when the
      order carries none. `updatedAt` is the ISO time of the last change. */
  datatype Order = Order(
    id: string,
    customerName: string,
    customerPhone: string,
    customerEmail: string,
    status: Status,
    items: seq<OrderItem>,
    updatedAt: string)

  // ------------------------------------------------------- stock decrement

  /** The products table after each line with a product has had its quantity
      taken off, in order, with no floor (OrdersTab.tsx:164-183). */
  function Decrement(db: map<string, int>, items: seq<OrderItem>): (r: map<string, int>)
    ensures r.Keys == db.Keys
    decreases |items|
  {
    if items == [] then db
    else
      var d := Decrement(db, items[..|items| - 1]);
      var item := items[|items| - 1];
      if item.productId != "" && item.productId in d then
        d[item.productId := d[item.productId] - item.quantity]
      else d
  }

  /** The total quantity an order asks of one product. */
  function QuantityFor(items: seq<OrderItem>, pid: string): int
    decreases |items|
  {
    if items == [] then 0
    else
      QuantityFor(items[..|items| - 1], pid)
      + (if items[|items| - 1].productId == pid then items[|items| - 1].quantity else 0)
  }

  /** Every listed product loses exactly what the order asks of it; every
      other product, and every product the order does not mention, keeps its
      stock. */
  lemma {:induction false} DecrementPerProduct(db: map<string, int>, items: seq<OrderItem>, pid: string)
    requires pid in db && pid != ""
    ensures Decrement(db, items)[pid] == db[pid] - QuantityFor(items, pid)
    decreases |items|
  {
    if items != [] {
      DecrementPerProduct(db, items[..|items| - 1], pid);
    }
  }

  /** There is no floor: a stock of 1 confirmed against a line of 3 is -2. */
  lemma DecrementHasNoFloor(pid: string, name: string)
    requires pid != ""
    ensures Decrement(map[pid := 1], [OrderItem(pid, name, 3, 0)])[pid] == -2
  {
    assert [OrderItem(pid, name, 3, 0)][..0] == [];
  }

  /** Running the decrement a second time takes the quantities off again. */
  lemma DecrementTwice(db: map<string, int>, items: seq<OrderItem>, pid: string)
    requires pid in db && pid != ""
    ensures Decrement(Decrement(db, items), items)[pid] == db[pid] - 2 * QuantityFor(items, pid)
  {
    DecrementPerProduct(db, items, pid);
    DecrementPerProduct(Decrement(db, items), items, pid);
  }

  /** The first order with that id (`orders.find`). */
  function FindOrder(orders: seq<Order>, id: string): Option<nat>
  {
    FindFirst(orders, (o: Order) => o.id == id)
  }

  /** `setOrders(orders.map(...))` (OrdersTab.tsx:204-208): the orders with
      that id take the new status and the time `now`. */
  function SetStatus(orders: seq<Order>, id: string, s: Status, now: string): (r: seq<Order>)
    ensures |r| == |orders|
    ensures forall k :: 0 <= k < |orders| ==>
      r[k] == if orders[k].id == id then orders[k].(status := s, updatedAt := now) else orders[k]
  {
    seq(|orders|, k requires 0 <= k < |orders| =>
      if orders[k].id == id then orders[k].(status := s, updatedAt := now) else orders[k])
  }

  /** Only the orders with that id change, and only in their status and
      update time; ids, customers and lines stay as they were. */
  lemma SetStatusOnlyTarget(orders: seq<Order>, id: string, s: Status, now: string, k: nat)
    requires k < |orders|
    ensures SetStatus(orders, id, s, now)[k].status == (if orders[k].id == id then s else orders[k].status)
    ensures SetStatus(orders, id, s, now)[k].updatedAt == (if orders[k].id == id then now else orders[k].updatedAt)
    ensures SetStatus(orders, id, s, now)[k].(status := orders[k].status, updatedAt := orders[k].updatedAt) == orders[k]
  {
  }

  /** Setting an order back to pending and confirming it again runs the
      decrement again: nothing remembers the first confirmation. */
  lemma ReconfirmRunsAgain(orders: seq<Order>, id: string, t1: string, t2: string)
    requires FindOrder(orders, id).Some?
    ensures var again := SetStatus(SetStatus(orders, id, Confirmed, t1), id, Pending, t2);
      && FindOrder(again, id) == FindOrder(orders, id)
      && DecrementRuns(again, id, Confirmed)
      && again[FindOrder(again, id).value].items == orders[FindOrder(orders, id).value].items
  {
    var k := FindOrder(orders, id).value;
    var again := SetStatus(SetStatus(orders, id, Confirmed, t1), id, Pending, t2);
    assert forall j :: 0 <= j < |orders| ==> again[j].id == orders[j].id;
    assert FindOrder(again, id) == Some(k) by {
      assert again[k].id == id;
      assert forall j :: 0 <= j < k ==> again[j].id != id;
      FindOrderUnique(again, id, k);
    }
  }

  /** `FindOrder` returns the first index with that id. */
  lemma FindOrderUnique(orders: seq<Order>, id: string, k: nat)
    requires k < |orders| && orders[k].id == id
    requires forall j :: 0 <= j < k ==> orders[j].id != id
    ensures FindOrder(orders, id) == Some(k)
  {
  }

  /** The decrement runs only for a pending order being confirmed
      (OrdersTab.tsx:163). */
  predicate DecrementRuns(orders: seq<Order>, id: string, newStatus: Status)
  {
    FindOrder(orders, id).Some?
    && orders[FindOrder(orders, id).value].status == Pending && newStatus == Confirmed
  }

  /** Which calls to the database fail: the stock read and the stock write
      for line `j` of the loop, and the final status write. */
  datatype Backend = Backend(fetchFails: set<nat>, updateFails: set<nat>, statusWriteFails: bool)

  /** Line `j` goes through: it has no product, or its product row is read
      and written back. */
  predicate StepSucceeds(db: map<string, int>, item: OrderItem, j: nat, b: Backend)
  {
    item.productId == "" || (item.productId in db && j !in b.fetchFails && j !in b.updateFails)
  }

  datatype Outcome = NotFound | FetchFailed(index: nat) | UpdateFailed(index: nat) | StatusWriteFailed | Updated

  /** The orders tab's state and the stock column of the products table. */
  class OrdersPanel {
    var orders: seq<Order>
    var stock: map<string, int>

    constructor (orders: seq<Order>, stock: map<string, int>)
      ensures this.orders == orders && this.stock == stock
    {
      this.orders := orders;
      this.stock := stock;
    }

    /** `updateOrderStatus` (OrdersTab.tsx:156-215). Any status may be
        chosen from any status (OrdersTab.tsx:426-437). A failed read or
        write of a product row stops the loop with the earlier decrements
        left in place and the order's status unchanged. `now` is the clock
        reading stamped into `updated_at`. */
    method UpdateOrderStatus(orderId: string, newStatus: Status, b: Backend, now: string) returns (r: Outcome)
      modifies this
      ensures r == NotFound <==> FindOrder(old(orders), orderId).None?
      ensures r == NotFound ==> orders == old(orders) && stock == old(stock)
      ensures r.FetchFailed? || r.UpdateFailed? ==>
        var items := old(orders)[FindOrder(old(orders), orderId).value].items;
        && DecrementRuns(old(orders), orderId, newStatus)
        && r.index < |items| && items[r.index].productId != ""
        && (forall j :: 0 <= j < r.index ==> StepSucceeds(old(stock), items[j], j, b))
        && stock == Decrement(old(stock), items[..r.index])
        && orders == old(orders)
      ensures r.FetchFailed? ==>
        var item := old(orders)[FindOrder(old(orders), orderId).value].items[r.index];
        item.productId !in old(stock) || r.index in b.fetchFails
      ensures r.UpdateFailed? ==>
        var item := old(orders)[FindOrder(old(orders), orderId).value].items[r.index];
        item.productId in old(stock) && r.index !in b.fetchFails && r.index in b.updateFails
      ensures r == StatusWriteFailed || r == Updated ==>
        var items := old(orders)[FindOrder(old(orders), orderId).value].items;
        if DecrementRuns(old(orders), orderId, newStatus) then
          (forall j :: 0 <= j < |items| ==> StepSucceeds(old(stock), items[j], j, b))
          && stock == Decrement(old(stock), items)
        else stock == old(stock)
      ensures r == StatusWriteFailed <==> r != NotFound && !r.FetchFailed? && !r.UpdateFailed? && b.statusWriteFails
      ensures r == StatusWriteFailed ==> orders == old(orders)
      ensures r == Updated ==> orders == SetStatus(old(orders), orderId, newStatus, now)
      ensures FindOrder(old(orders), orderId).Some? && !b.statusWriteFails
        && b.fetchFails == {} && b.updateFails == {}
        && (forall j :: 0 <= j < |old(orders)[FindOrder(old(orders), orderId).value].items| ==>
              var pid := old(orders)[FindOrder(old(orders), orderId).value].items[j].productId;
              pid != "" ==> pid in old(stock))
        ==> r == Updated
    {
      var found := FindOrder(orders, orderId);
      if found.None? {
        return NotFound;
      }
      var order := orders[found.value];
      if order.status == Pending && newStatus == Confirmed {
        var i := 0;
        while i < |order.items|
          invariant 0 <= i <= |order.items|
          invariant orders == old(orders)
          invariant forall j :: 0 <= j < i ==> StepSucceeds(old(stock), order.items[j], j, b)
          invariant stock == Decrement(old(stock), order.items[..i])
        {
          var item := order.items[i];
          assert order.items[..i + 1][..i] == order.items[..i];
          if item.productId != "" {
            if item.productId !in stock || i in b.fetchFails {
              return FetchFailed(i);
            }
            var newStock := stock[item.productId] - item.quantity;
            if i in b.updateFails {
              return UpdateFailed(i);
            }
            stock := stock[item.productId := newStock];
          }
          i := i + 1;
        }
        assert order.items[..i] == order.items;
      }
      if b.statusWriteFails {
        return StatusWriteFailed;
      }
      orders := SetStatus(orders, orderId, newStatus, now);
      return Updated;
    }
  }

  // ----------------------------------------------------------------- filter

  datatype StatusFilter = AllStatuses | OnlyStatus(status: Status)

  predicate StatusMatches(f: StatusFilter, o: Order)
  {
    f.AllStatuses? || o.status == f.status
  }

  /** The search of OrdersTab.tsx:110-118 with the query already lower-cased:
      the phone is searched as stored, the other fields lower-cased. An
      absent email ("") never contains the non-empty query. */
  predicate SearchMatches(o: Order, query: string)
  {
    Contains(Lower(o.customerName), query)
    || Contains(Lower(o.customerEmail), query)
    || Contains(o.customerPhone, query)
    || Contains(Lower(o.id), query)
  }

  /** Whichever filters run, the orders kept are as many as the orders that
      pass both tests. */
  lemma OrdersKeptCount(orders: seq<Order>, f: StatusFilter, searchQuery: string)
    ensures |if searchQuery == "" then (if f.AllStatuses? then orders else Filter(orders, (o: Order) => o.status == f.status))
             else Filter(if f.AllStatuses? then orders else Filter(orders, (o: Order) => o.status == f.status),
                         (o: Order) => SearchMatches(o, Lower(searchQuery)))|
      == Count(orders, (o: Order) => StatusMatches(f, o) && (searchQuery == "" || SearchMatches(o, Lower(searchQuery))))
  {
    var keep := (o: Order) => StatusMatches(f, o) && (searchQuery == "" || SearchMatches(o, Lower(searchQuery)));
    FilterLength(orders, keep);
    if f.AllStatuses? && searchQuery == "" {
      FilterAll(orders, keep);
    } else if f.AllStatuses? {
      FilterExt(orders, (o: Order) => SearchMatches(o, Lower(searchQuery)), keep);
    } else if searchQuery == "" {
      FilterExt(orders, (o: Order) => o.status == f.status, keep);
    } else {
      FilterFusion(orders, (o: Order) => o.status == f.status, (o: Order) => SearchMatches(o, Lower(searchQuery)), keep);
    }
  }

  /** The filter steps of `filterAndSortOrders` (OrdersTab.tsx:101-118):
      status first, then search when the query is non-empty. */
  function FilterOrders(orders: seq<Order>, f: StatusFilter, searchQuery: string): (r: seq<Order>)
    ensures forall o :: o in r <==>
      o in orders && StatusMatches(f, o) && (searchQuery == "" || SearchMatches(o, Lower(searchQuery)))
    ensures IsSubsequence(r, orders)
    ensures f.AllStatuses? && searchQuery == "" ==> r == orders
    ensures |r| == Count(orders, (o: Order) =>
      StatusMatches(f, o) && (searchQuery == "" || SearchMatches(o, Lower(searchQuery))))
  {
    OrdersKeptCount(orders, f, searchQuery);
    var byStatus := if f.AllStatuses? then orders else Filter(orders, (o: Order) => o.status == f.status);
    var r := if searchQuery == "" then byStatus else Filter(byStatus, (o: Order) => SearchMatches(o, Lower(searchQuery)));
    if f.OnlyStatus? && searchQuery != "" then
      FilterFusion(orders, (o: Order) => o.status == f.status, (o: Order) => SearchMatches(o, Lower(searchQuery)),
        (o: Order) => o.status == f.status && SearchMatches(o, Lower(searchQuery)));
      r
    else if f.AllStatuses? && searchQuery == "" then
      SubsequenceRefl(orders);
      r
    else r
  }
}
