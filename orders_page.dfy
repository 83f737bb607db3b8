/** The logic of src/pages/Orders.tsx: the search and status filter, the
    grouping of the filtered orders per customer, the order form's item
    snapshot, total and dispatch, and the status toggle. */
module OrdersPage {
  import opened Ledger
  import opened Seqs
  import opened Text
  import opened Balance
  import opened Store

  // ---------------------------------------------------------------------
  // Search and status filter

  datatype StatusFilter = AllStatuses | OnlyStatus(status: Status)

  /** The customer's name or some item's product name includes the term, ignoring case. */
  predicate MentionsTerm(o: Order, term: string, fold: char -> char) {
    var t := Lower(term, fold);
    || Contains(Lower(o.customerName, fold), t)
    || exists i :: 0 <= i < |o.items| && Contains(Lower(o.items[i].productName, fold), t)
  }

  predicate StatusAdmits(f: StatusFilter, s: Status) {
    f.AllStatuses? || f.status == s
  }

  /** `filteredOrders`, in stored order. */
  function FilteredOrders(orders: seq<Order>, term: string, f: StatusFilter, fold: char -> char): (r: seq<Order>)
    ensures forall o :: o in r <==> o in orders && MentionsTerm(o, term, fold) && StatusAdmits(f, o.status)
  {
    Filter(orders, (o: Order) => MentionsTerm(o, term, fold) && StatusAdmits(f, o.status))
  }

  /** An empty search with every status shows every order, in stored order. */
  lemma EmptySearchKeepsAllOrders(orders: seq<Order>, fold: char -> char)
    ensures FilteredOrders(orders, "", AllStatuses, fold) == orders
  {
    forall o | o in orders ensures MentionsTerm(o, "", fold) && StatusAdmits(AllStatuses, o.status) {
      assert Lower("", fold) == "";
      ContainsEmpty(Lower(o.customerName, fold));
    }
    FilterAll(orders, (o: Order) => MentionsTerm(o, "", fold) && StatusAdmits(AllStatuses, o.status));
  }

  // ---------------------------------------------------------------------
  // Grouping per customer

  /** The dictionary after the orders `done`: each customer met maps to
      their orders so far, in order. */
  ghost predicate Grouped(done: seq<Order>, groups: map<string, seq<Order>>) {
    && (forall c :: c in groups <==> Find(done, OrderCustomer, c).Some?)
    && (forall c :: c in groups ==> groups[c] == WithKey(done, OrderCustomer, c))
  }

  lemma GroupStep(done: seq<Order>, o: Order, groups: map<string, seq<Order>>)
    requires Grouped(done, groups)
    ensures var c := o.customerId;
      Grouped(done + [o], groups[c := (if c in groups then groups[c] else []) + [o]])
  {
    var c := o.customerId;
    var groups' := groups[c := (if c in groups then groups[c] else []) + [o]];
    forall d ensures d in groups' <==> Find(done + [o], OrderCustomer, d).Some? {
      FindSnoc(done, o, OrderCustomer, d);
    }
    forall d | d in groups' ensures groups'[d] == WithKey(done + [o], OrderCustomer, d) {
      WithKeySnoc(done, o, OrderCustomer, d);
      if d == c && c !in groups {
        FindFound(done, OrderCustomer, c);
        WithKeyNone(done, OrderCustomer, c);
      }
    }
  }

  /** `groupedOrders`: `(acc[id] = acc[id] || []).push(order)` over the
      filtered orders; `keys` is the dictionary's key order. */
  method GroupOrders(fos: seq<Order>) returns (keys: seq<string>, groups: map<string, seq<Order>>)
    ensures keys == KeyOrder(fos, OrderCustomer)
    ensures forall c :: c in groups <==> c in keys
    ensures forall c :: c in groups ==> groups[c] == WithKey(fos, OrderCustomer, c)
  {
    keys, groups := [], map[];
    var i := 0;
    while i < |fos|
      invariant 0 <= i <= |fos|
      invariant keys == KeyOrder(fos[..i], OrderCustomer)
      invariant Grouped(fos[..i], groups)
    {
      var o := fos[i];
      GroupStep(fos[..i], o, groups);
      KeyOrderSnoc(fos[..i], o, OrderCustomer);
      if o.customerId !in groups {
        keys := keys + [o.customerId];
      }
      var group := if o.customerId in groups then groups[o.customerId] else [];
      groups := groups[o.customerId := group + [o]];
      TakeSnoc(fos, i);
      i := i + 1;
    }
    assert fos[..i] == fos;
    forall c ensures c in groups <==> c in keys {
      KeyOrderHas(fos, OrderCustomer, c);
    }
  }

  /** The sizes of the groups of `keys`, added up. */
  function GroupSizes(fos: seq<Order>, keys: seq<string>): int {
    if keys == [] then 0 else GroupSizes(fos, keys[..|keys| - 1]) + |WithKey(fos, OrderCustomer, keys[|keys| - 1])|
  }

  function CountOne(o: Order): int { 1 }

  lemma {:induction false} GroupSizesPerKey(fos: seq<Order>, keys: seq<string>)
    ensures GroupSizes(fos, keys) == SumPerKey(fos, OrderCustomer, CountOne, keys)
  {
    if keys != [] {
      GroupSizesPerKey(fos, keys[..|keys| - 1]);
      SumOfOnes(WithKey(fos, OrderCustomer, keys[|keys| - 1]), CountOne);
    }
  }

  /** The groups partition the filtered orders: none is empty, and their
      sizes add up to the number of filtered orders. */
  lemma GroupsPartition(fos: seq<Order>)
    ensures forall c :: c in KeyOrder(fos, OrderCustomer) ==> |WithKey(fos, OrderCustomer, c)| > 0
    ensures GroupSizes(fos, KeyOrder(fos, OrderCustomer)) == |fos|
  {
    var keys := KeyOrder(fos, OrderCustomer);
    forall c | c in keys ensures |WithKey(fos, OrderCustomer, c)| > 0 {
      KeyOrderHas(fos, OrderCustomer, c);
      FindFound(fos, OrderCustomer, c);
      assert Find(fos, OrderCustomer, c).value in WithKey(fos, OrderCustomer, c);
    }
    KeyOrderIsFirstAppearances(fos, OrderCustomer);
    forall o | o in fos ensures OrderCustomer(o) in keys {
      FindFound(fos, OrderCustomer, o.customerId);
      KeyOrderHas(fos, OrderCustomer, o.customerId);
    }
    GroupSizesPerKey(fos, keys);
    PartitionSum(fos, OrderCustomer, CountOne, keys);
    SumOfOnes(fos, CountOne);
  }

  // ---------------------------------------------------------------------
  // The order form

  /** One line of the form: a product id and a quantity. */
  datatype ItemEntry = ItemEntry(productId: string, quantity: int)

  datatype OrderForm = OrderForm(customerId: string, orderDate: int, items: seq<ItemEntry>, status: Status)

  /** The line as stored: name and price copied from the product with that
      id now, or `''` and 0 when there is none. */
  function Snapshot(products: seq<Product>, e: ItemEntry): OrderItem {
    match Find(products, ProductId, e.productId)
    case Some(p) => OrderItem(e.productId, p.name, e.quantity, p.price)
    case None => OrderItem(e.productId, "", e.quantity, 0)
  }

  function SnapshotItems(products: seq<Product>, entries: seq<ItemEntry>): seq<OrderItem> {
    Map(entries, (e: ItemEntry) => Snapshot(products, e))
  }

  function LineAmount(it: OrderItem): int { it.price * it.quantity }

  /** Each stored line keeps the entry's product id and quantity and takes
      the name and price of the first product with that id, or `''` and 0. */
  lemma SnapshotLines(products: seq<Product>, entries: seq<ItemEntry>)
    ensures var items := SnapshotItems(products, entries);
      && |items| == |entries|
      && forall i :: 0 <= i < |items| ==>
           var k := FirstIndex(products, ProductId, entries[i].productId);
           && items[i].productId == entries[i].productId
           && items[i].quantity == entries[i].quantity
           && items[i].productName == (if k.Some? then products[k.value].name else "")
           && items[i].price == (if k.Some? then products[k.value].price else 0)
  {
    forall i | 0 <= i < |entries| {
      FindFirst(products, ProductId, entries[i].productId);
    }
  }

  /** Lines of non-negative price and quantity make a non-negative total,
      which is what keeps the customer's aggregates bounded. */
  lemma {:induction false} TotalNotNegative(items: seq<OrderItem>)
    requires forall it :: it in items ==> it.price >= 0 && it.quantity >= 0
    ensures Sum(items, LineAmount) >= 0
  {
    if items != [] {
      var init := items[..|items| - 1];
      assert forall it :: it in init ==> it in items;
      assert items[|items| - 1] in items;
      TotalNotNegative(init);
    }
  }

  /** The order the form builds for the customer it found. */
  function DraftOf(form: OrderForm, customer: Customer, products: seq<Product>, now: int): OrderDraft {
    var items := SnapshotItems(products, form.items);
    OrderDraft(form.customerId, customer.name, items, Sum(items, LineAmount), form.status, form.orderDate,
               if form.status == Delivered then Some(now) else None)
  }

  /** The fields `updateOrder` receives: every key of the draft, the
      delivery date included even when undefined. */
  function DraftPatch(d: OrderDraft): OrderPatch {
    OrderPatch(None, Some(d.customerId), Some(d.customerName), Some(d.items), Some(d.totalAmount),
               Some(d.status), Some(d.orderDate), Some(d.deliveryDate), None)
  }

  datatype OrderAction = NoOrderAction | UpdateOrderAction(id: string, patch: OrderPatch) | AddOrderAction(draft: OrderDraft)

  /** `handleSubmit`: the store call the form makes, if any; `editing` is
      the order being edited and `now` the clock reading. */
  function SubmitOrder(form: OrderForm, editing: Option<Order>, customers: seq<Customer>, products: seq<Product>, now: int): (a: OrderAction)
    ensures a.NoOrderAction? <==>
      form.customerId == "" || |form.items| == 0 || forall c :: c in customers ==> c.id != form.customerId
    ensures a.UpdateOrderAction? <==> !a.NoOrderAction? && editing.Some?
    ensures a.UpdateOrderAction? ==> a.id == editing.value.id
  {
    FindFound(customers, CustomerId, form.customerId);
    if form.customerId == "" || |form.items| == 0 then NoOrderAction
    else match Find(customers, CustomerId, form.customerId)
      case None => NoOrderAction
      case Some(customer) =>
        var draft := DraftOf(form, customer, products, now);
        if editing.Some? then UpdateOrderAction(editing.value.id, DraftPatch(draft)) else AddOrderAction(draft)
  }

  /** What a submitted order carries: the first customer with the id's name,
      the snapshot lines and their total, and a delivery date exactly when
      delivered. An edit overwrites every field but the id and the creation time. */
  lemma SubmittedOrder(form: OrderForm, editing: Option<Order>, customers: seq<Customer>, products: seq<Product>, now: int)
    requires !SubmitOrder(form, editing, customers, products, now).NoOrderAction?
    ensures var a := SubmitOrder(form, editing, customers, products, now);
      var d := if a.AddOrderAction? then a.draft else DraftOf(form, Find(customers, CustomerId, form.customerId).value, products, now);
      var k := FirstIndex(customers, CustomerId, form.customerId);
      && k.Some?
      && d.customerId == form.customerId
      && d.customerName == customers[k.value].name
      && d.items == SnapshotItems(products, form.items)
      && d.totalAmount == Sum(d.items, LineAmount)
      && (d.deliveryDate.Some? <==> d.status == Delivered)
      && (a.UpdateOrderAction? ==>
            var o := PatchOrder(editing.value, a.patch);
            o == Order(editing.value.id, d.customerId, d.customerName, d.items, d.totalAmount,
                       d.status, d.orderDate, d.deliveryDate, editing.value.createdAt))
  {
    FindFirst(customers, CustomerId, form.customerId);
  }

  /** Performs the form's action on the store: exactly one call, or none.
      An add appends the order and raises the first found customer's
      aggregates on every customer with the id; an edit patches every order
      with the id and no other, and leaves the customers alone. */
  method PerformOrderAction(store: DataStore, a: OrderAction, id: string, createdAt: int)
    modifies store
    ensures a.NoOrderAction? ==> store.orders == old(store.orders) && store.customers == old(store.customers)
    ensures a.AddOrderAction? ==> store.orders == old(store.orders) + [NewOrder(a.draft, id, createdAt)]
    ensures a.AddOrderAction? ==> var found := Find(old(store.customers), CustomerId, a.draft.customerId);
      && |store.customers| == |old(store.customers)|
      && (forall j :: 0 <= j < |store.customers| ==>
            store.customers[j] == if found.Some? && old(store.customers[j]).id == a.draft.customerId
                                  then PatchCustomer(old(store.customers[j]), OrderAggregates(found.value, a.draft.totalAmount))
                                  else old(store.customers[j]))
    ensures a.AddOrderAction? && a.draft.totalAmount >= 0 && old(UniqueIds(store.customers)) && old(store.AggregatesBounded())
      ==> store.AggregatesBounded()
    ensures a.UpdateOrderAction? ==>
      && |store.orders| == |old(store.orders)|
      && (forall j :: 0 <= j < |store.orders| ==>
            store.orders[j] == if old(store.orders[j]).id == a.id then PatchOrder(old(store.orders[j]), a.patch) else old(store.orders[j]))
      && store.customers == old(store.customers)
    ensures store.products == old(store.products) && store.payments == old(store.payments)
  {
    match a
    case NoOrderAction =>
    case AddOrderAction(draft) => store.AddOrder(draft, id, createdAt);
    case UpdateOrderAction(oid, patch) => store.UpdateOrder(oid, patch);
  }

  // ---------------------------------------------------------------------
  // Status toggle

  function Toggled(s: Status): Status {
    if s == Pending then Delivered else Pending
  }

  /** `toggleOrderStatus`: the fields handed to `updateOrder`. */
  function TogglePatch(o: Order, now: int): OrderPatch {
    var s := Toggled(o.status);
    NoOrderChange.(status := Some(s), deliveryDate := Some(if s == Delivered then Some(now) else None))
  }

  /** A toggle changes the status, dates the delivery exactly when the new
      status is delivered, and leaves the rest; toggling twice restores the
      status and everything else but the delivery date. */
  lemma ToggleTwice(o: Order, now1: int, now2: int)
    ensures var o1 := PatchOrder(o, TogglePatch(o, now1));
      var o2 := PatchOrder(o1, TogglePatch(o1, now2));
      && o1.status != o.status
      && (o1.deliveryDate.Some? <==> o1.status == Delivered)
      && o1.(status := o.status, deliveryDate := o.deliveryDate) == o
      && o2.status == o.status
      && o2.(deliveryDate := o.deliveryDate) == o
  {
  }
}
