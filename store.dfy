/** The data store of src/contexts/DataContext.tsx: four lists held as state,
    replaced wholesale by each mutator. Generated ids and clock readings are
    parameters of the mutators. */
module Store {
  import opened Ledger
  import opened Seqs
  import opened Balance

  /** The record `addCustomer` appends: the profile plus zeroed aggregates. */
  function NewCustomer(draft: CustomerDraft, id: string, createdAt: int): (c: Customer)
    ensures c.totalOrders == 0 && c.totalAmount == 0 && c.paidAmount == 0 && c.pendingBalance == 0
    ensures c.id == id && c.name == draft.name && c.phone == draft.phone && c.address == draft.address
    ensures Bounded(c)
  {
    Customer(id, draft.name, draft.phone, draft.address, 0, 0, 0, 0, createdAt)
  }

  function NewOrder(draft: OrderDraft, id: string, createdAt: int): Order {
    Order(id, draft.customerId, draft.customerName, draft.items, draft.totalAmount,
          draft.status, draft.orderDate, draft.deliveryDate, createdAt)
  }

  /** No two customers share an id. Ids are generated at random, so this is
      what the generator is trusted for; the bounds below rely on it, because
      the maintainer writes one customer's new aggregates to every customer
      with the same id. */
  predicate UniqueIds(cs: seq<Customer>) {
    forall i, j :: 0 <= i < j < |cs| ==> cs[i].id != cs[j].id
  }

  /** Deleting by id keeps ids unique. */
  lemma {:induction false} WithoutKeyKeepsUniqueIds(cs: seq<Customer>, id: string)
    requires UniqueIds(cs)
    ensures UniqueIds(WithoutKey(cs, CustomerId, id))
  {
    if cs != [] {
      var init, last := cs[..|cs| - 1], cs[|cs| - 1];
      assert cs == init + [last];
      WithoutKeyKeepsUniqueIds(init, id);
      var r0 := WithoutKey(init, CustomerId, id);
      if last.id != id {
        var r := r0 + [last];
        forall i, j | 0 <= i < j < |r| ensures r[i].id != r[j].id {
          if j < |r0| {
            assert r[i] == r0[i] && r[j] == r0[j];
          } else {
            assert r[i] in r0 && r[i] in init;
            var k :| 0 <= k < |init| && init[k] == r[i];
            assert cs[k] == r[i] && cs[|cs| - 1] == last;
          }
        }
      }
    }
  }

  class DataStore {
    var products: seq<Product>
    var customers: seq<Customer>
    var orders: seq<Order>
    var payments: seq<Payment>

    /** Every customer's aggregates satisfy the maintainer's bounds. */
    ghost predicate AggregatesBounded()
      reads this
    {
      forall c :: c in customers ==> Bounded(c)
    }

    /** A fresh store holds no records (the stored lists default to empty). */
    constructor ()
      ensures products == [] && customers == [] && orders == [] && payments == []
      ensures AggregatesBounded()
    {
      products, customers, orders, payments := [], [], [], [];
    }

    method AddProduct(draft: ProductDraft, id: string, createdAt: int)
      modifies this
      ensures products == old(products) + [Product(id, draft.name, draft.price, createdAt)]
      ensures customers == old(customers) && orders == old(orders) && payments == old(payments)
    {
      products := products + [Product(id, draft.name, draft.price, createdAt)];
    }

    /** Every product with the id is overwritten field by field; the rest stay. */
    method UpdateProduct(id: string, patch: ProductPatch)
      modifies this
      ensures |products| == |old(products)|
      ensures forall j :: 0 <= j < |products| ==>
        products[j] == if old(products[j]).id == id then PatchProduct(old(products[j]), patch) else old(products[j])
      ensures customers == old(customers) && orders == old(orders) && payments == old(payments)
    {
      products := UpdateWhere(products, ProductId, id, p => PatchProduct(p, patch));
    }

    method DeleteProduct(id: string)
      modifies this
      ensures products == WithoutKey(old(products), ProductId, id)
      ensures forall p :: p in products <==> p in old(products) && p.id != id
      ensures customers == old(customers) && orders == old(orders) && payments == old(payments)
    {
      products := WithoutKey(products, ProductId, id);
    }

    method AddCustomer(draft: CustomerDraft, id: string, createdAt: int)
      modifies this
      ensures customers == old(customers) + [NewCustomer(draft, id, createdAt)]
      ensures old(AggregatesBounded()) ==> AggregatesBounded()
      ensures old(UniqueIds(customers)) && (forall c :: c in old(customers) ==> c.id != id) ==> UniqueIds(customers)
      ensures products == old(products) && orders == old(orders) && payments == old(payments)
    {
      customers := customers + [NewCustomer(draft, id, createdAt)];
    }

    /** Every customer with the id is overwritten field by field; a patch that
        leaves the aggregates alone keeps them bounded. */
    method UpdateCustomer(id: string, patch: CustomerPatch)
      modifies this
      ensures |customers| == |old(customers)|
      ensures forall j :: 0 <= j < |customers| ==>
        customers[j] == if old(customers[j]).id == id then PatchCustomer(old(customers[j]), patch) else old(customers[j])
      ensures KeepsAggregates(patch) && old(AggregatesBounded()) ==> AggregatesBounded()
      ensures patch.id.None? && old(UniqueIds(customers)) ==> UniqueIds(customers)
      ensures products == old(products) && orders == old(orders) && payments == old(payments)
    {
      ghost var before := customers;
      customers := UpdateWhere(customers, CustomerId, id, c => PatchCustomer(c, patch));
      if KeepsAggregates(patch) && (forall d :: d in before ==> Bounded(d)) {
        forall d | d in customers ensures Bounded(d) {
          var j :| 0 <= j < |customers| && customers[j] == d;
          assert before[j] in before;
        }
      }
    }

    /** Removes the customer and every order of theirs; their payments remain. */
    method DeleteCustomer(id: string)
      modifies this
      ensures customers == WithoutKey(old(customers), CustomerId, id)
      ensures orders == WithoutKey(old(orders), OrderCustomer, id)
      ensures forall o :: o in orders ==> o.customerId != id
      ensures payments == old(payments) && products == old(products)
      ensures old(AggregatesBounded()) ==> AggregatesBounded()
      ensures old(UniqueIds(customers)) ==> UniqueIds(customers)
    {
      if UniqueIds(customers) {
        WithoutKeyKeepsUniqueIds(customers, id);
      }
      customers := WithoutKey(customers, CustomerId, id);
      orders := WithoutKey(orders, OrderCustomer, id);
    }

    /** Appends the order and, when a customer with the order's customer id
        exists, adds one order and the order total to the first such customer's
        count, billed amount and balance, written to every customer with that id. */
    method AddOrder(draft: OrderDraft, id: string, createdAt: int)
      modifies this
      ensures orders == old(orders) + [NewOrder(draft, id, createdAt)]
      ensures var found := Find(old(customers), CustomerId, draft.customerId);
        && |customers| == |old(customers)|
        && (forall j :: 0 <= j < |customers| ==>
              customers[j] == if found.Some? && old(customers[j]).id == draft.customerId
                              then PatchCustomer(old(customers[j]), OrderAggregates(found.value, draft.totalAmount))
                              else old(customers[j]))
        && (found.Some? ==> Step(found.value, OrderPlaced(draft.totalAmount)) in customers)
      ensures old(UniqueIds(customers)) ==> UniqueIds(customers)
      ensures draft.totalAmount >= 0 && old(UniqueIds(customers)) && old(AggregatesBounded()) ==> AggregatesBounded()
      ensures products == old(products) && payments == old(payments)
    {
      orders := orders + [NewOrder(draft, id, createdAt)];
      var found := Find(customers, CustomerId, draft.customerId);
      FindFirst(customers, CustomerId, draft.customerId);
      if found.Some? {
        var c := found.value;
        ghost var before := customers;
        UpdateCustomer(c.id, OrderAggregates(c, draft.totalAmount));
        ghost var i := FirstIndex(before, CustomerId, draft.customerId).value;
        assert before[i] == c;
        assert customers[i] == Step(c, OrderPlaced(draft.totalAmount));
        if draft.totalAmount >= 0 && UniqueIds(before) && (forall d :: d in before ==> Bounded(d)) {
          OrderKeepsBounds(c, draft.totalAmount);
          forall d | d in customers ensures Bounded(d) {
            var j :| 0 <= j < |customers| && customers[j] == d;
            assert before[j] in before;
            if before[j].id == c.id {
              assert j == i;
            }
          }
        }
      }
    }

    /** Every order with the id is overwritten field by field; the rest stay. */
    method UpdateOrder(id: string, patch: OrderPatch)
      modifies this
      ensures |orders| == |old(orders)|
      ensures forall j :: 0 <= j < |orders| ==>
        orders[j] == if old(orders[j]).id == id then PatchOrder(old(orders[j]), patch) else old(orders[j])
      ensures products == old(products) && customers == old(customers) && payments == old(payments)
    {
      orders := UpdateWhere(orders, OrderId, id, o => PatchOrder(o, patch));
    }

    /** Removes the order; the customer's aggregates are not rolled back. */
    method DeleteOrder(id: string)
      modifies this
      ensures orders == WithoutKey(old(orders), OrderId, id)
      ensures forall o :: o in orders <==> o in old(orders) && o.id != id
      ensures products == old(products) && customers == old(customers) && payments == old(payments)
    {
      orders := WithoutKey(orders, OrderId, id);
    }

    /** When a customer with the id exists: adds the amount to the first such
        customer's paid amount, lowers the balance by it but not below zero,
        writes both to every customer with that id, and appends the payment
        under the found customer's name. Otherwise nothing changes. */
    method MakePayment(customerId: string, amount: int, paymentDate: int, id: string, createdAt: int)
      modifies this
      ensures var found := Find(old(customers), CustomerId, customerId);
        && (found.None? ==> customers == old(customers) && payments == old(payments))
        && (found.Some? ==>
              && payments == old(payments) + [Payment(id, customerId, found.value.name, amount, paymentDate, createdAt)]
              && |customers| == |old(customers)|
              && (forall j :: 0 <= j < |customers| ==>
                    customers[j] == if old(customers[j]).id == customerId
                                    then PatchCustomer(old(customers[j]), PaymentAggregates(found.value, amount))
                                    else old(customers[j]))
              && Step(found.value, PaymentMade(amount)) in customers)
      ensures old(UniqueIds(customers)) ==> UniqueIds(customers)
      ensures amount > 0 && old(UniqueIds(customers)) && old(AggregatesBounded()) ==> AggregatesBounded()
      ensures products == old(products) && orders == old(orders)
    {
      var found := Find(customers, CustomerId, customerId);
      FindFirst(customers, CustomerId, customerId);
      if found.Some? {
        var c := found.value;
        ghost var before := customers;
        UpdateCustomer(customerId, PaymentAggregates(c, amount));
        ghost var i := FirstIndex(before, CustomerId, customerId).value;
        assert before[i] == c;
        assert customers[i] == Step(c, PaymentMade(amount));
        if amount > 0 && UniqueIds(before) && (forall d :: d in before ==> Bounded(d)) {
          PaymentKeepsBounds(c, amount);
          forall d | d in customers ensures Bounded(d) {
            var j :| 0 <= j < |customers| && customers[j] == d;
            assert before[j] in before;
            if before[j].id == c.id {
              assert j == i;
            }
          }
        }
        payments := payments + [Payment(id, customerId, c.name, amount, paymentDate, createdAt)];
      }
    }
  }
}
