/** The figures of src/pages/Dashboard.tsx: the day's statistics and
    product sales for one selected day, and three sums over the customers'
    stored aggregates. */
module Dashboard {
  import opened Ledger
  import opened Seqs
  import opened Balance
  import opened Queries

  function SalesOf(c: Customer): int { c.totalAmount }
  function PaidOf(c: Customer): int { c.paidAmount }
  function PendingOf(c: Customer): int { c.pendingBalance }

  function TotalSales(customers: seq<Customer>): int { Sum(customers, SalesOf) }
  function TotalPaid(customers: seq<Customer>): int { Sum(customers, PaidOf) }
  function TotalPending(customers: seq<Customer>): int { Sum(customers, PendingOf) }

  /** When every customer's aggregates are bounded, the overall pending
      amount is between nothing and the overall sales, and at least the
      overall sales less the overall paid amount. */
  lemma {:induction false} PendingWithinSales(customers: seq<Customer>)
    requires forall c :: c in customers ==> Bounded(c)
    ensures 0 <= TotalPending(customers) <= TotalSales(customers)
    ensures TotalSales(customers) - TotalPaid(customers) <= TotalPending(customers)
  {
    if customers != [] {
      var init, last := customers[..|customers| - 1], customers[|customers| - 1];
      assert forall c :: c in init ==> c in customers;
      assert last in customers;
      PendingWithinSales(init);
    }
  }

  /** A calendar day as the inclusive window of its timestamps. */
  datatype Day = Day(start: int, end: int)

  /** The window of an unparsable date: `parseISO("")` is an Invalid Date,
      every comparison with it is false, and no timestamp falls inside. */
  const InvalidDay := Day(1, 0)

  /** The two queries of the page for the selected day. A cleared date input
      (`None`) is read differently by the two: the statistics fall back to
      today, the product sales parse the empty string and match no order. */
  method DashboardView(customers: seq<Customer>, orders: seq<Order>, payments: seq<Payment>, selected: Option<Day>, today: Day)
    returns (stats: DashboardStats, productSales: seq<ProductSale>)
    ensures selected.Some? ==>
      && stats == GetDashboardStats(customers, orders, payments, selected.value.start, selected.value.end)
      && productSales == DailySales(orders, selected.value.start, selected.value.end)
    ensures selected.None? ==>
      && stats == GetDashboardStats(customers, orders, payments, today.start, today.end)
      && productSales == []
  {
    var statsDay := if selected.Some? then selected.value else today;
    var salesDay := if selected.Some? then selected.value else InvalidDay;
    stats := GetDashboardStats(customers, orders, payments, statsDay.start, statsDay.end);
    productSales := GetDailyProductSales(orders, salesDay.start, salesDay.end);
    if selected.None? {
      NoSalesOnInvalidDay(orders);
    }
  }

  /** No order falls in the window of an Invalid Date, so no product is listed. */
  lemma NoSalesOnInvalidDay(orders: seq<Order>)
    ensures DailySales(orders, InvalidDay.start, InvalidDay.end) == []
  {
    NoOrdersOnInvalidDay(orders);
  }

  lemma {:induction false} NoOrdersOnInvalidDay(orders: seq<Order>)
    ensures OrdersOn(orders, InvalidDay.start, InvalidDay.end) == []
  {
    if orders != [] {
      var init, last := orders[..|orders| - 1], orders[|orders| - 1];
      assert orders == init + [last];
      NoOrdersOnInvalidDay(init);
      OrdersOnSnoc(init, last, InvalidDay.start, InvalidDay.end);
    }
  }

  /** Every item of a listed order is among the listed orders' items. */
  lemma {:induction false} ItemsOfHas(os: seq<Order>, o: Order, it: OrderItem)
    requires o in os && it in o.items
    ensures it in ItemsOf(os)
  {
    var init, last := os[..|os| - 1], os[|os| - 1];
    if o != last {
      assert o in init by {
        assert os == init + [last];
      }
      ItemsOfHas(init, o, it);
    }
  }

  /** With the date cleared, a day on which some item was sold gets today's
      statistics but an empty product list where today's is not empty. */
  lemma ClearedDateSplitsDay(orders: seq<Order>, today: Day, o: Order)
    requires o in orders && InWindow(o.orderDate, today.start, today.end) && o.items != []
    ensures DailySales(orders, today.start, today.end) != []
    ensures DailySales(orders, InvalidDay.start, InvalidDay.end) == []
  {
    var items := ItemsOf(OrdersOn(orders, today.start, today.end));
    var ids := KeyOrder(items, ItemProduct);
    ItemsOfHas(OrdersOn(orders, today.start, today.end), o, o.items[0]);
    ProductKeyOrder(items, ids);
    assert o.items[0].productId in ids;
    NoSalesOnInvalidDay(orders);
  }
}
