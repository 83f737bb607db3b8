/** The balance maintainer: how `addOrder` and `makePayment`
    (src/contexts/DataContext.tsx) rewrite the four aggregates of the customer
    they find, and what those incremental updates guarantee over any history. */
module Balance {
  import opened Ledger
  import opened Seqs

  /** `Math.max(0, x)` */
  function Max0(x: int): int { if x < 0 then 0 else x }

  /** The fields `addOrder` hands to `updateCustomer` for the customer it found. */
  function OrderAggregates(c: Customer, orderTotal: int): CustomerPatch {
    NoCustomerChange.(
      totalOrders := Some(c.totalOrders + 1),
      totalAmount := Some(c.totalAmount + orderTotal),
      pendingBalance := Some(c.pendingBalance + orderTotal))
  }

  /** The fields `makePayment` hands to `updateCustomer` for the customer it found. */
  function PaymentAggregates(c: Customer, amount: int): CustomerPatch {
    NoCustomerChange.(
      paidAmount := Some(c.paidAmount + amount),
      pendingBalance := Some(Max0(c.pendingBalance - amount)))
  }

  /** The inequalities the incremental updates keep: the balance is never
      negative, never above what was billed, and never below billed minus paid. */
  predicate Bounded(c: Customer) {
    && 0 <= c.totalOrders
    && 0 <= c.paidAmount
    && 0 <= c.pendingBalance <= c.totalAmount
    && c.totalAmount - c.paidAmount <= c.pendingBalance
  }

  /** Whether two customer records agree on everything but the four aggregates. */
  predicate SameProfile(a: Customer, b: Customer) {
    a.id == b.id && a.name == b.name && a.phone == b.phone && a.address == b.address && a.createdAt == b.createdAt
  }

  /** One call that reaches the maintainer for an existing customer. */
  datatype Event = OrderPlaced(total: int) | PaymentMade(amount: int)

  /** The hypothesis under which the aggregates stay bounded: every order
      total is non-negative and every payment amount positive. The payment
      form admits only positive amounts; a non-negative order total holds
      only while no product has a negative price, which the product form
      does not rule out. */
  predicate WellFormed(events: seq<Event>) {
    forall e :: e in events ==> (e.OrderPlaced? ==> e.total >= 0) && (e.PaymentMade? ==> e.amount > 0)
  }

  function Step(c: Customer, e: Event): Customer {
    match e
    case OrderPlaced(t) => PatchCustomer(c, OrderAggregates(c, t))
    case PaymentMade(a) => PatchCustomer(c, PaymentAggregates(c, a))
  }

  function Replay(c: Customer, events: seq<Event>): Customer {
    if events == [] then c else Step(Replay(c, events[..|events| - 1]), events[|events| - 1])
  }

  function OrdersIn(e: Event): int { if e.OrderPlaced? then 1 else 0 }
  function BilledIn(e: Event): int { if e.OrderPlaced? then e.total else 0 }
  function PaidIn(e: Event): int { if e.PaymentMade? then e.amount else 0 }

  /** One order keeps the bounds when its total is not negative. */
  lemma OrderKeepsBounds(c: Customer, total: int)
    requires Bounded(c) && total >= 0
    ensures Bounded(Step(c, OrderPlaced(total)))
  {
  }

  /** One payment keeps the bounds when its amount is positive; it never lowers
      the paid amount and never raises the balance. */
  lemma PaymentKeepsBounds(c: Customer, amount: int)
    requires Bounded(c) && amount > 0
    ensures Bounded(Step(c, PaymentMade(amount)))
    ensures Step(c, PaymentMade(amount)).paidAmount > c.paidAmount
    ensures Step(c, PaymentMade(amount)).pendingBalance <= c.pendingBalance
  {
  }

  /** From bounded aggregates, any history of well-formed calls keeps them bounded. */
  lemma {:induction false} ReplayKeepsBounds(c: Customer, events: seq<Event>)
    requires Bounded(c)
    requires WellFormed(events)
    ensures Bounded(Replay(c, events))
  {
    if events != [] {
      var init, last := events[..|events| - 1], events[|events| - 1];
      assert last in events;
      assert WellFormed(init) by {
        forall e | e in init ensures e in events { }
      }
      ReplayKeepsBounds(c, init);
      match last
      case OrderPlaced(t) => OrderKeepsBounds(Replay(c, init), t);
      case PaymentMade(a) => PaymentKeepsBounds(Replay(c, init), a);
    }
  }

  /** The aggregates count exactly what happened: the orders placed, the sum
      billed and the sum paid; the profile fields are untouched. */
  lemma {:induction false} ReplayCounts(c: Customer, events: seq<Event>)
    ensures var r := Replay(c, events);
      && SameProfile(r, c)
      && r.totalOrders == c.totalOrders + Sum(events, OrdersIn)
      && r.totalAmount == c.totalAmount + Sum(events, BilledIn)
      && r.paidAmount == c.paidAmount + Sum(events, PaidIn)
  {
    if events != [] {
      ReplayCounts(c, events[..|events| - 1]);
    }
  }

  /** Paid amount, order count and amount billed never decrease. */
  lemma {:induction false} ReplayMonotone(c: Customer, events: seq<Event>)
    requires WellFormed(events)
    ensures Replay(c, events).totalOrders >= c.totalOrders
    ensures Replay(c, events).totalAmount >= c.totalAmount
    ensures Replay(c, events).paidAmount >= c.paidAmount
  {
    if events != [] {
      var init, last := events[..|events| - 1], events[|events| - 1];
      assert last in events;
      assert WellFormed(init) by {
        forall e | e in init ensures e in events { }
      }
      ReplayMonotone(c, init);
    }
  }

  /** The floored equality `pendingBalance == max(0, totalAmount - paidAmount)`
      does not survive an overpayment followed by an order: an order does not
      floor, so the credit left by the overpayment is forgotten. */
  lemma OverpaymentThenOrder(c: Customer)
    requires c.totalOrders == 0 && c.totalAmount == 0 && c.paidAmount == 0 && c.pendingBalance == 0
    ensures var r := Replay(c, [PaymentMade(100), OrderPlaced(50)]);
      && r.totalAmount == 50 && r.paidAmount == 100 && r.pendingBalance == 50
      && r.pendingBalance != Max0(r.totalAmount - r.paidAmount)
  {
    var one, two := [PaymentMade(100)], [PaymentMade(100), OrderPlaced(50)];
    assert one[..0] == [] && two[..1] == one;
    var afterPayment := Step(c, PaymentMade(100));
    assert Replay(c, one) == afterPayment;
    assert afterPayment.paidAmount == 100 && afterPayment.pendingBalance == 0;
    assert Replay(c, two) == Step(afterPayment, OrderPlaced(50));
  }
}
