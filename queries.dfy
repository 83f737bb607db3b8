/** The read side of src/contexts/DataContext.tsx: the dashboard statistics
    for one day, the filtered and date-sorted order and payment lists, and the
    per-product quantities sold on one day. A calendar day is the inclusive
    window `[dayStart, dayEnd]` of timestamps. */
module Queries {
  import opened Ledger
  import opened Seqs
  import opened Sorting

  predicate InWindow(date: int, dayStart: int, dayEnd: int) {
    dayStart <= date <= dayEnd
  }

  /** The orders dated within the day, in stored order: each as many times
      as it is stored. */
  function OrdersOn(orders: seq<Order>, dayStart: int, dayEnd: int): (r: seq<Order>)
    ensures forall o :: o in r <==> o in orders && dayStart <= o.orderDate <= dayEnd
    ensures forall o :: multiset(r)[o] == if dayStart <= o.orderDate <= dayEnd then multiset(orders)[o] else 0
  {
    FilterMultiset(orders, (o: Order) => InWindow(o.orderDate, dayStart, dayEnd));
    Filter(orders, (o: Order) => InWindow(o.orderDate, dayStart, dayEnd))
  }

  /** The payments dated within the day, in stored order: each as many times
      as it is stored. */
  function PaymentsOn(payments: seq<Payment>, dayStart: int, dayEnd: int): (r: seq<Payment>)
    ensures forall p :: p in r <==> p in payments && dayStart <= p.paymentDate <= dayEnd
    ensures forall p :: multiset(r)[p] == if dayStart <= p.paymentDate <= dayEnd then multiset(payments)[p] else 0
  {
    FilterMultiset(payments, (p: Payment) => InWindow(p.paymentDate, dayStart, dayEnd));
    Filter(payments, (p: Payment) => InWindow(p.paymentDate, dayStart, dayEnd))
  }

  lemma OrdersOnSnoc(orders: seq<Order>, o: Order, dayStart: int, dayEnd: int)
    ensures OrdersOn(orders + [o], dayStart, dayEnd)
         == OrdersOn(orders, dayStart, dayEnd) + (if InWindow(o.orderDate, dayStart, dayEnd) then [o] else [])
  {
    FilterSnoc(orders, o, (o: Order) => InWindow(o.orderDate, dayStart, dayEnd));
  }

  lemma PaymentsOnSnoc(payments: seq<Payment>, p: Payment, dayStart: int, dayEnd: int)
    ensures PaymentsOn(payments + [p], dayStart, dayEnd)
         == PaymentsOn(payments, dayStart, dayEnd) + (if InWindow(p.paymentDate, dayStart, dayEnd) then [p] else [])
  {
    FilterSnoc(payments, p, (p: Payment) => InWindow(p.paymentDate, dayStart, dayEnd));
  }

  function IsPending(o: Order): bool { o.status == Pending }
  function IsDelivered(o: Order): bool { o.status == Delivered }

  /** Every order is either pending or delivered, so the two counts split the total. */
  lemma {:induction false} StatusSplit(orders: seq<Order>)
    ensures |Filter(orders, IsPending)| + |Filter(orders, IsDelivered)| == |orders|
  {
    if orders != [] {
      var init, last := orders[..|orders| - 1], orders[|orders| - 1];
      assert orders == init + [last];
      StatusSplit(init);
      FilterSnoc(init, last, IsPending);
      FilterSnoc(init, last, IsDelivered);
    }
  }

  /** `getDashboardStats`: what was sold and collected on the day, and counts
      over the whole store. */
  function GetDashboardStats(customers: seq<Customer>, orders: seq<Order>, payments: seq<Payment>,
                             dayStart: int, dayEnd: int): (r: DashboardStats)
    ensures r.totalCustomers == |customers| && r.totalOrders == |orders|
    ensures r.pendingOrders + r.deliveredOrders == r.totalOrders
    ensures 0 <= r.pendingOrders && 0 <= r.deliveredOrders
  {
    StatusSplit(orders);
    DashboardStats(
      Sum(OrdersOn(orders, dayStart, dayEnd), OrderTotal),
      Sum(PaymentsOn(payments, dayStart, dayEnd), PaymentAmount),
      |customers|,
      |orders|,
      |Filter(orders, IsPending)|,
      |Filter(orders, IsDelivered)|)
  }

  /** Storing one more order adds its total to the day's selling exactly when
      it is dated within the day, both ends included, and leaves the
      collection alone. */
  lemma DailySellingGrows(customers: seq<Customer>, orders: seq<Order>, payments: seq<Payment>,
                          o: Order, dayStart: int, dayEnd: int)
    ensures GetDashboardStats(customers, orders + [o], payments, dayStart, dayEnd).dailySelling
         == GetDashboardStats(customers, orders, payments, dayStart, dayEnd).dailySelling
            + (if dayStart <= o.orderDate <= dayEnd then o.totalAmount else 0)
    ensures GetDashboardStats(customers, orders + [o], payments, dayStart, dayEnd).dailyCollection
         == GetDashboardStats(customers, orders, payments, dayStart, dayEnd).dailyCollection
  {
    OrdersOnSnoc(orders, o, dayStart, dayEnd);
    if InWindow(o.orderDate, dayStart, dayEnd) {
      SumSnoc(OrdersOn(orders, dayStart, dayEnd), o, OrderTotal);
    }
  }

  /** Storing one more payment adds its amount to the day's collection exactly
      when it is dated within the day, and leaves the selling alone. */
  lemma DailyCollectionGrows(customers: seq<Customer>, orders: seq<Order>, payments: seq<Payment>,
                             p: Payment, dayStart: int, dayEnd: int)
    ensures GetDashboardStats(customers, orders, payments + [p], dayStart, dayEnd).dailyCollection
         == GetDashboardStats(customers, orders, payments, dayStart, dayEnd).dailyCollection
            + (if dayStart <= p.paymentDate <= dayEnd then p.amount else 0)
    ensures GetDashboardStats(customers, orders, payments + [p], dayStart, dayEnd).dailySelling
         == GetDashboardStats(customers, orders, payments, dayStart, dayEnd).dailySelling
  {
    PaymentsOnSnoc(payments, p, dayStart, dayEnd);
    if InWindow(p.paymentDate, dayStart, dayEnd) {
      SumSnoc(PaymentsOn(payments, dayStart, dayEnd), p, PaymentAmount);
    }
  }

  /** A string criterion is supplied when it is present and not empty. */
  predicate Given(s: Option<string>) {
    s.Some? && s.value != ""
  }

  predicate HasProduct(o: Order, productId: string) {
    exists i :: 0 <= i < |o.items| && o.items[i].productId == productId
  }

  /** The filter of `getFilteredOrders`, as its chain of early rejections. */
  function OrderMatches(o: Order, f: FilterOptions): (b: bool)
    ensures b <==>
      && (f.dateFrom.Some? ==> f.dateFrom.value <= o.orderDate)
      && (f.dateTo.Some? ==> o.orderDate <= f.dateTo.value)
      && (Given(f.customer) ==> o.customerId == f.customer.value)
      && (f.status.Some? ==> o.status == f.status.value)
      && (Given(f.product) ==> exists it :: it in o.items && it.productId == f.product.value)
  {
    if f.dateFrom.Some? && o.orderDate < f.dateFrom.value then false
    else if f.dateTo.Some? && o.orderDate > f.dateTo.value then false
    else if Given(f.customer) && o.customerId != f.customer.value then false
    else if f.status.Some? && o.status != f.status.value then false
    else if Given(f.product) && !HasProduct(o, f.product.value) then false
    else true
  }

  /** The filter of `getFilteredPayments`: dates and customer only. */
  function PaymentMatches(p: Payment, f: FilterOptions): (b: bool)
    ensures b <==>
      && (f.dateFrom.Some? ==> f.dateFrom.value <= p.paymentDate)
      && (f.dateTo.Some? ==> p.paymentDate <= f.dateTo.value)
      && (Given(f.customer) ==> p.customerId == f.customer.value)
  {
    if f.dateFrom.Some? && p.paymentDate < f.dateFrom.value then false
    else if f.dateTo.Some? && p.paymentDate > f.dateTo.value then false
    else if Given(f.customer) && p.customerId != f.customer.value then false
    else true
  }

  function MatchingOrders(orders: seq<Order>, f: FilterOptions): seq<Order> {
    Filter(orders, (o: Order) => OrderMatches(o, f))
  }

  function MatchingPayments(payments: seq<Payment>, f: FilterOptions): seq<Payment> {
    Filter(payments, (p: Payment) => PaymentMatches(p, f))
  }

  /** The comparator `(a, b) => date(b) - date(a)` read as "a may precede b". */
  predicate NewestFirst(a: Order, b: Order) { b.orderDate - a.orderDate <= 0 }
  predicate NewestPaymentFirst(a: Payment, b: Payment) { b.paymentDate - a.paymentDate <= 0 }

  lemma NewestFirstIsPreorder()
    ensures TotalPreorder(NewestFirst) && TotalPreorder(NewestPaymentFirst)
  {
  }

  /** `getFilteredOrders`: each stored order meeting every supplied criterion,
      as many times as it is stored, newest first. */
  function GetFilteredOrders(orders: seq<Order>, f: FilterOptions): (r: seq<Order>)
    ensures forall o :: multiset(r)[o] == if OrderMatches(o, f) then multiset(orders)[o] else 0
    ensures forall o :: o in r <==> o in orders && OrderMatches(o, f)
    ensures forall i, j :: 0 <= i < j < |r| ==> r[i].orderDate >= r[j].orderDate
  {
    NewestFirstIsPreorder();
    var m := MatchingOrders(orders, f);
    var r := StableSort(m, NewestFirst);
    assert forall o :: multiset(m)[o] == if OrderMatches(o, f) then multiset(orders)[o] else 0 by {
      forall o ensures multiset(m)[o] == if OrderMatches(o, f) then multiset(orders)[o] else 0 {
        FilterCounts(orders, (o: Order) => OrderMatches(o, f), o);
      }
    }
    assert forall o :: o in r <==> o in m by {
      forall o ensures o in r <==> o in m {
        assert o in r <==> o in multiset(r);
      }
    }
    r
  }

  /** `getFilteredPayments`: each stored payment meeting every supplied
      criterion, as many times as it is stored, newest first. */
  function GetFilteredPayments(payments: seq<Payment>, f: FilterOptions): (r: seq<Payment>)
    ensures forall p :: multiset(r)[p] == if PaymentMatches(p, f) then multiset(payments)[p] else 0
    ensures forall p :: p in r <==> p in payments && PaymentMatches(p, f)
    ensures forall i, j :: 0 <= i < j < |r| ==> r[i].paymentDate >= r[j].paymentDate
  {
    NewestFirstIsPreorder();
    var m := MatchingPayments(payments, f);
    var r := StableSort(m, NewestPaymentFirst);
    assert forall p :: multiset(m)[p] == if PaymentMatches(p, f) then multiset(payments)[p] else 0 by {
      forall p ensures multiset(m)[p] == if PaymentMatches(p, f) then multiset(payments)[p] else 0 {
        FilterCounts(payments, (p: Payment) => PaymentMatches(p, f), p);
      }
    }
    assert forall p :: p in r <==> p in m by {
      forall p ensures p in r <==> p in m {
        assert p in r <==> p in multiset(r);
      }
    }
    r
  }

  const NoFilters := FilterOptions(None, None, None, None, None)

  /** With no criteria every stored order comes back, reordered. */
  lemma UnfilteredOrders(orders: seq<Order>)
    ensures multiset(GetFilteredOrders(orders, NoFilters)) == multiset(orders)
  {
    var r := GetFilteredOrders(orders, NoFilters);
    assert forall o :: multiset(r)[o] == multiset(orders)[o];
  }

  /** An empty customer or product id is falsy and filters nothing. */
  lemma EmptyCriterionIsAbsent(orders: seq<Order>, f: FilterOptions)
    ensures GetFilteredOrders(orders, f.(customer := Some(""))) == GetFilteredOrders(orders, f.(customer := None))
    ensures GetFilteredOrders(orders, f.(product := Some(""))) == GetFilteredOrders(orders, f.(product := None))
  {
    var f1, f2 := f.(customer := Some("")), f.(customer := None);
    FilterCongruent(orders, (o: Order) => OrderMatches(o, f1), (o: Order) => OrderMatches(o, f2));
    var g1, g2 := f.(product := Some("")), f.(product := None);
    FilterCongruent(orders, (o: Order) => OrderMatches(o, g1), (o: Order) => OrderMatches(o, g2));
  }

  /** Orders of the same date keep their stored relative order. */
  lemma FilteredOrdersStable(orders: seq<Order>, f: FilterOptions, x: Order)
    ensures Peers(GetFilteredOrders(orders, f), NewestFirst, x) == Peers(MatchingOrders(orders, f), NewestFirst, x)
  {
    NewestFirstIsPreorder();
    StableSortKeepsPeers(MatchingOrders(orders, f), NewestFirst, x);
  }

  /** One row of `getDailyProductSales`. */
  datatype ProductSale = ProductSale(productName: string, totalQuantity: int)

  function SaleQuantity(s: ProductSale): int { s.totalQuantity }

  /** The items of the orders, order after order. */
  function ItemsOf(orders: seq<Order>): seq<OrderItem> {
    if orders == [] then [] else ItemsOf(orders[..|orders| - 1]) + orders[|orders| - 1].items
  }

  /** One more order of the prefix adds its items. */
  lemma ItemsOfTake(os: seq<Order>, i: nat)
    requires i < |os|
    ensures ItemsOf(os[..i + 1]) == ItemsOf(os[..i]) + os[i].items
  {
    assert os[..i + 1][..i] == os[..i];
  }

  /** The name the dictionary entry keeps: that of the product's first item. */
  function NameOf(items: seq<OrderItem>, productId: string): string {
    match Find(items, ItemProduct, productId)
    case Some(it) => it.productName
    case None => ""
  }

  /** The quantity of the product over the items, accumulated as the dictionary does. */
  function QuantityOf(items: seq<OrderItem>, productId: string): int {
    if items == [] then 0
    else
      var last := items[|items| - 1];
      QuantityOf(items[..|items| - 1], productId) + (if last.productId == productId then last.quantity else 0)
  }

  /** The accumulated quantity is the sum over the product's items. */
  lemma {:induction false} QuantityOfIsSum(items: seq<OrderItem>, productId: string)
    ensures QuantityOf(items, productId) == Sum(WithKey(items, ItemProduct, productId), ItemQuantity)
  {
    if items != [] {
      var init, last := items[..|items| - 1], items[|items| - 1];
      QuantityOfIsSum(init, productId);
      if last.productId == productId {
        SumSnoc(WithKey(init, ItemProduct, productId), last, ItemQuantity);
      }
    }
  }

  function SaleOf(items: seq<OrderItem>, productId: string): ProductSale {
    ProductSale(NameOf(items, productId), QuantityOf(items, productId))
  }

  function SalesFor(items: seq<OrderItem>, productIds: seq<string>): (r: seq<ProductSale>)
    ensures |r| == |productIds|
    ensures forall i :: 0 <= i < |r| ==> r[i] == SaleOf(items, productIds[i])
  {
    seq(|productIds|, i requires 0 <= i < |productIds| => SaleOf(items, productIds[i]))
  }

  /** What `getDailyProductSales` reports: for each product id among the day's
      items, in order of first appearance, the name of its first item and the
      total quantity of its items. */
  function DailySales(orders: seq<Order>, dayStart: int, dayEnd: int): (r: seq<ProductSale>)
  {
    var items := ItemsOf(OrdersOn(orders, dayStart, dayEnd));
    SalesFor(items, KeyOrder(items, ItemProduct))
  }

  /** The products of the day's items are listed once each, in order of first appearance. */
  lemma ProductKeyOrder(items: seq<OrderItem>, ids: seq<string>)
    requires ids == KeyOrder(items, ItemProduct)
    ensures Distinct(ids)
    ensures forall p :: p in ids <==> exists it :: it in items && it.productId == p
    ensures forall i, j :: 0 <= i < j < |ids| ==>
      && FirstIndex(items, ItemProduct, ids[i]).Some? && FirstIndex(items, ItemProduct, ids[j]).Some?
      && FirstIndex(items, ItemProduct, ids[i]).value < FirstIndex(items, ItemProduct, ids[j]).value
  {
    var keys := Map(items, ItemProduct);
    KeyOrderIsFirstAppearances(items, ItemProduct);
    FirstAppearancesOrdered(keys, ids);
    forall p ensures p in ids <==> exists it :: it in items && it.productId == p {
      InMap(items, ItemProduct, p);
    }
    forall k | k in keys ensures FirstIndex(keys, Itself, k) == FirstIndex(items, ItemProduct, k) {
      KeysFirstIndex(items, ItemProduct, k);
    }
  }

  /** Each reported entry carries the name of its product's first item that day
      and the sum of the quantities of its product's items. */
  lemma DailySalesEntries(orders: seq<Order>, dayStart: int, dayEnd: int, items: seq<OrderItem>, ids: seq<string>)
    requires items == ItemsOf(OrdersOn(orders, dayStart, dayEnd))
    requires ids == KeyOrder(items, ItemProduct)
    ensures |DailySales(orders, dayStart, dayEnd)| == |ids|
    ensures forall i :: 0 <= i < |ids| ==>
      && FirstIndex(items, ItemProduct, ids[i]).Some?
      && DailySales(orders, dayStart, dayEnd)[i].productName == items[FirstIndex(items, ItemProduct, ids[i]).value].productName
      && DailySales(orders, dayStart, dayEnd)[i].totalQuantity == Sum(WithKey(items, ItemProduct, ids[i]), ItemQuantity)
  {
    var r := DailySales(orders, dayStart, dayEnd);
    forall i | 0 <= i < |ids|
      ensures FirstIndex(items, ItemProduct, ids[i]).Some?
      ensures r[i].productName == items[FirstIndex(items, ItemProduct, ids[i]).value].productName
      ensures r[i].totalQuantity == Sum(WithKey(items, ItemProduct, ids[i]), ItemQuantity)
    {
      assert ids[i] in ids;
      KeyOrderHas(items, ItemProduct, ids[i]);
      FindFirst(items, ItemProduct, ids[i]);
      QuantityOfIsSum(items, ids[i]);
    }
  }

  lemma {:induction false} SalesForSum(items: seq<OrderItem>, productIds: seq<string>)
    ensures Sum(SalesFor(items, productIds), SaleQuantity) == SumPerKey(items, ItemProduct, ItemQuantity, productIds)
  {
    if productIds != [] {
      var init := productIds[..|productIds| - 1];
      SalesForSum(items, init);
      QuantityOfIsSum(items, productIds[|productIds| - 1]);
      assert SalesFor(items, productIds)[..|init|] == SalesFor(items, init);
    }
  }

  /** The reported quantities add up to the quantity of every item sold that day. */
  lemma DailySalesTotal(orders: seq<Order>, dayStart: int, dayEnd: int)
    ensures Sum(DailySales(orders, dayStart, dayEnd), SaleQuantity)
         == Sum(ItemsOf(OrdersOn(orders, dayStart, dayEnd)), ItemQuantity)
  {
    var items := ItemsOf(OrdersOn(orders, dayStart, dayEnd));
    var ids := KeyOrder(items, ItemProduct);
    KeyOrderIsFirstAppearances(items, ItemProduct);
    SalesForSum(items, ids);
    forall it | it in items ensures ItemProduct(it) in ids {
      InMap(items, ItemProduct, it.productId);
    }
    PartitionSum(items, ItemProduct, ItemQuantity, ids);
  }

  /** The dictionary `getDailyProductSales` has filled after seeing `done`:
      one entry per product seen, holding its first name and its quantity so far. */
  function TallyOf(done: seq<OrderItem>): map<string, ProductSale> {
    map p | p in KeyOrder(done, ItemProduct) :: SaleOf(done, p)
  }

  lemma {:induction false} UnseenHasNoQuantity(items: seq<OrderItem>, productId: string)
    requires Find(items, ItemProduct, productId).None?
    ensures QuantityOf(items, productId) == 0
  {
    if items != [] {
      UnseenHasNoQuantity(items[..|items| - 1], productId);
    }
  }

  lemma SaleOfSnoc(done: seq<OrderItem>, it: OrderItem, p: string)
    ensures SaleOf(done + [it], p)
         == if it.productId != p then SaleOf(done, p)
            else if Find(done, ItemProduct, p).Some? then SaleOf(done, p).(totalQuantity := SaleOf(done, p).totalQuantity + it.quantity)
            else ProductSale(it.productName, it.quantity)
  {
    assert (done + [it])[..|done|] == done;
    if Find(done, ItemProduct, p).None? {
      UnseenHasNoQuantity(done, p);
    }
  }

  /** An item of a product already tallied adds its quantity to the entry. */
  lemma TallySeen(done: seq<OrderItem>, it: OrderItem)
    requires it.productId in TallyOf(done)
    ensures var sales, k := TallyOf(done), it.productId;
      && KeyOrder(done + [it], ItemProduct) == KeyOrder(done, ItemProduct)
      && TallyOf(done + [it]) == sales[k := sales[k].(totalQuantity := sales[k].totalQuantity + it.quantity)]
  {
    var sales, k := TallyOf(done), it.productId;
    var sales' := sales[k := sales[k].(totalQuantity := sales[k].totalQuantity + it.quantity)];
    var after := TallyOf(done + [it]);
    KeyOrderSnoc(done, it, ItemProduct);
    KeyOrderHas(done, ItemProduct, k);
    assert forall p :: p in after <==> p in sales';
    forall p | p in after ensures after[p] == sales'[p] {
      KeyOrderHas(done, ItemProduct, p);
      SaleOfSnoc(done, it, p);
    }
    assert after == sales';
  }

  /** An item of a product not yet tallied opens an entry for it and its
      product id is appended to the key order. */
  lemma TallyNew(done: seq<OrderItem>, it: OrderItem)
    requires it.productId !in TallyOf(done)
    ensures var sales, k := TallyOf(done), it.productId;
      && KeyOrder(done + [it], ItemProduct) == KeyOrder(done, ItemProduct) + [k]
      && TallyOf(done + [it]) == sales[k := ProductSale(it.productName, it.quantity)]
  {
    var sales, k := TallyOf(done), it.productId;
    var sales' := sales[k := ProductSale(it.productName, it.quantity)];
    var after := TallyOf(done + [it]);
    KeyOrderSnoc(done, it, ItemProduct);
    KeyOrderHas(done, ItemProduct, k);
    assert forall p :: p in after <==> p in sales';
    forall p | p in after ensures after[p] == sales'[p] {
      KeyOrderHas(done, ItemProduct, p);
      SaleOfSnoc(done, it, p);
    }
    assert after == sales';
  }

  /** One pass of the inner loop of `getDailyProductSales`: adds the item's
      quantity to its product's entry, or opens the entry. */
  method TallyItem(it: OrderItem, ghost seen: seq<OrderItem>, ids: seq<string>, sales: map<string, ProductSale>)
    returns (ids': seq<string>, sales': map<string, ProductSale>)
    requires ids == KeyOrder(seen, ItemProduct) && sales == TallyOf(seen)
    ensures ids' == KeyOrder(seen + [it], ItemProduct) && sales' == TallyOf(seen + [it])
  {
    ids' := ids;
    if it.productId in sales {
      TallySeen(seen, it);
      var entry := sales[it.productId];
      sales' := sales[it.productId := entry.(totalQuantity := entry.totalQuantity + it.quantity)];
    } else {
      TallyNew(seen, it);
      sales' := sales[it.productId := ProductSale(it.productName, it.quantity)];
      ids' := ids' + [it.productId];
    }
  }

  /** The inner loop of `getDailyProductSales`: tallies one order's items. */
  method TallyItems(items: seq<OrderItem>, ghost done: seq<OrderItem>, ids: seq<string>, sales: map<string, ProductSale>)
    returns (ids': seq<string>, sales': map<string, ProductSale>)
    requires ids == KeyOrder(done, ItemProduct) && sales == TallyOf(done)
    ensures ids' == KeyOrder(done + items, ItemProduct) && sales' == TallyOf(done + items)
  {
    ids', sales' := ids, sales;
    var j := 0;
    assert done + items[..0] == done;
    while j < |items|
      invariant 0 <= j <= |items|
      invariant ids' == KeyOrder(done + items[..j], ItemProduct) && sales' == TallyOf(done + items[..j])
    {
      PrefixSnoc(done, items, j);
      ids', sales' := TallyItem(items[j], done + items[..j], ids', sales');
      j := j + 1;
    }
    assert items[..j] == items;
  }

  /** `Object.values(productSales).map(...)`: the entries in key order. */
  method ListSales(ids: seq<string>, sales: map<string, ProductSale>, ghost done: seq<OrderItem>) returns (r: seq<ProductSale>)
    requires ids == KeyOrder(done, ItemProduct) && sales == TallyOf(done)
    ensures r == SalesFor(done, ids)
  {
    r := [];
    var k := 0;
    while k < |ids|
      invariant 0 <= k <= |ids|
      invariant r == SalesFor(done, ids[..k])
    {
      assert ids[k] in ids;
      r := r + [sales[ids[k]]];
      k := k + 1;
    }
    assert ids[..k] == ids;
  }

  /** `getDailyProductSales`: fills the dictionary item by item over the day's
      orders, then lists its entries in key order. */
  method GetDailyProductSales(orders: seq<Order>, dayStart: int, dayEnd: int) returns (r: seq<ProductSale>)
    ensures r == DailySales(orders, dayStart, dayEnd)
  {
    var today := OrdersOn(orders, dayStart, dayEnd);
    var ids: seq<string> := [];
    var sales: map<string, ProductSale> := map[];
    ghost var done: seq<OrderItem> := [];
    var i := 0;
    while i < |today|
      invariant 0 <= i <= |today|
      invariant done == ItemsOf(today[..i])
      invariant ids == KeyOrder(done, ItemProduct) && sales == TallyOf(done)
    {
      ids, sales := TallyItems(today[i].items, done, ids, sales);
      done := done + today[i].items;
      ItemsOfTake(today, i);
      i := i + 1;
    }
    assert today[..i] == today;
    r := ListSales(ids, sales, done);
  }
}
