/** The transaction history of src/components/Customers/CustomerDetailsModal.tsx:
    one customer's orders and payments merged, sorted by date, each row
    carrying the balance accumulated so far. */
module CustomerHistory {
  import opened Ledger
  import opened Seqs
  import opened Sorting

  datatype Kind = OrderKind | PaymentKind

  /** One merged entry: an order raises the balance by its total, a payment
      lowers it by its amount. The formatted description is left out; an
      order keeps its items. */
  datatype Movement = Movement(id: string, date: int, kind: Kind, items: seq<OrderItem>, change: int)

  /** A displayed row: the entry and the running balance after it. */
  datatype Row = Row(movement: Movement, balance: int)

  function OrderMovement(o: Order): Movement { Movement(o.id, o.orderDate, OrderKind, o.items, o.totalAmount) }
  function PaymentMovement(p: Payment): Movement { Movement(p.id, p.paymentDate, PaymentKind, [], -p.amount) }
  function Change(m: Movement): int { m.change }
  function IsOrderMovement(m: Movement): bool { m.kind == OrderKind }

  /** `[...customerOrders.map(...), ...customerPayments.map(...)]` */
  function Combined(orders: seq<Order>, payments: seq<Payment>, customerId: string): seq<Movement> {
    Map(WithKey(orders, OrderCustomer, customerId), OrderMovement)
      + Map(WithKey(payments, PaymentCustomer, customerId), PaymentMovement)
  }

  /** The comparator `date(a) - date(b)` read as "a may precede b". */
  predicate EarlierMovement(a: Movement, b: Movement) { a.date - b.date <= 0 }

  /** The merged entries after `combined.sort(...)`. */
  function Chronological(orders: seq<Order>, payments: seq<Payment>, customerId: string): (r: seq<Movement>)
    ensures multiset(r) == multiset(Combined(orders, payments, customerId))
    ensures |r| == |WithKey(orders, OrderCustomer, customerId)| + |WithKey(payments, PaymentCustomer, customerId)|
    ensures forall i, j :: 0 <= i < j < |r| ==> r[i].date <= r[j].date
  {
    assert TotalPreorder(EarlierMovement);
    var r := StableSort(Combined(orders, payments, customerId), EarlierMovement);
    assert forall i, j :: 0 <= i < j < |r| ==> EarlierMovement(r[i], r[j]);
    r
  }

  /** On the same date, the customer's orders come before their payments. */
  lemma OrdersBeforePaymentsOnADay(orders: seq<Order>, payments: seq<Payment>, customerId: string)
    ensures var r := Chronological(orders, payments, customerId);
      forall i, j :: 0 <= i < j < |r| && r[i].kind == PaymentKind && r[j].kind == OrderKind ==> r[i].date < r[j].date
  {
    var a := Map(WithKey(orders, OrderCustomer, customerId), OrderMovement);
    var b := Map(WithKey(payments, PaymentCustomer, customerId), PaymentMovement);
    assert TotalPreorder(EarlierMovement);
    StableSortKeepsBlockOrder(a, b, EarlierMovement, IsOrderMovement);
    assert BlockOrdered(Chronological(orders, payments, customerId), EarlierMovement, IsOrderMovement);
  }

  /** The entries change the balance by what the customer was billed minus
      what they paid, over all their stored orders and payments. */
  lemma NetChange(orders: seq<Order>, payments: seq<Payment>, customerId: string)
    ensures Sum(Chronological(orders, payments, customerId), Change)
         == Sum(WithKey(orders, OrderCustomer, customerId), OrderTotal)
            - Sum(WithKey(payments, PaymentCustomer, customerId), PaymentAmount)
  {
    SumPermutation(Chronological(orders, payments, customerId), Combined(orders, payments, customerId), Change);
    CombinedChange(WithKey(orders, OrderCustomer, customerId), WithKey(payments, PaymentCustomer, customerId));
  }

  /** Before sorting, the changes add up to the order totals minus the payment amounts. */
  lemma CombinedChange(os: seq<Order>, ps: seq<Payment>)
    ensures Sum(Map(os, OrderMovement) + Map(ps, PaymentMovement), Change) == Sum(os, OrderTotal) - Sum(ps, PaymentAmount)
  {
    SumAppend(Map(os, OrderMovement), Map(ps, PaymentMovement), Change);
    SumMap(os, OrderMovement, Change, OrderTotal);
    SumMap(ps, PaymentMovement, Change, NegatedAmount);
    NegatedSum(ps);
  }

  function NegatedAmount(p: Payment): int { -p.amount }

  lemma {:induction false} NegatedSum(ps: seq<Payment>)
    ensures Sum(ps, NegatedAmount) == -Sum(ps, PaymentAmount)
  {
    if ps != [] {
      NegatedSum(ps[..|ps| - 1]);
    }
  }

  /** The rows of `entries`, each carrying the sum of the changes up to and including it. */
  predicate Balanced(entries: seq<Movement>, rows: seq<Row>) {
    && |rows| == |entries|
    && (forall i :: 0 <= i < |rows| ==> rows[i].movement == entries[i] && rows[i].balance == Sum(entries[..i + 1], Change))
  }

  /** The `map` with `runningBalance += tx.change`. */
  method Accumulate(entries: seq<Movement>) returns (rows: seq<Row>)
    ensures Balanced(entries, rows)
  {
    var runningBalance := 0;
    rows := [];
    var i := 0;
    while i < |entries|
      invariant 0 <= i <= |entries|
      invariant |rows| == i
      invariant runningBalance == Sum(entries[..i], Change)
      invariant forall k :: 0 <= k < i ==> rows[k].movement == entries[k] && rows[k].balance == Sum(entries[..k + 1], Change)
    {
      TakeSnoc(entries, i);
      SumSnoc(entries[..i], entries[i], Change);
      runningBalance := runningBalance + entries[i].change;
      rows := rows + [Row(entries[i], runningBalance)];
      i := i + 1;
    }
  }

  /** `processedTransactions` */
  method ProcessedTransactions(orders: seq<Order>, payments: seq<Payment>, customerId: string) returns (rows: seq<Row>)
    ensures Balanced(Chronological(orders, payments, customerId), rows)
  {
    rows := Accumulate(Chronological(orders, payments, customerId));
  }

  /** Each row's balance is the previous row's plus its own change; the last
      is the sum of all changes. */
  lemma BalanceSteps(entries: seq<Movement>, rows: seq<Row>)
    requires Balanced(entries, rows)
    ensures |rows| > 0 ==> rows[0].balance == rows[0].movement.change
    ensures forall i :: 0 < i < |rows| ==> rows[i].balance == rows[i - 1].balance + rows[i].movement.change
    ensures |rows| > 0 ==> rows[|rows| - 1].balance == Sum(entries, Change)
  {
    if |rows| > 0 {
      assert entries[..1] == [] + [entries[0]];
      SumSnoc([], entries[0], Change);
      assert entries[..|rows|] == entries;
    }
    forall i | 0 < i < |rows| ensures rows[i].balance == rows[i - 1].balance + rows[i].movement.change {
      assert entries[..i + 1] == entries[..i] + [entries[i]];
      SumSnoc(entries[..i], entries[i], Change);
    }
  }

  /** The last row's balance is what the customer was billed minus what they paid. */
  lemma FinalBalance(orders: seq<Order>, payments: seq<Payment>, customerId: string, rows: seq<Row>)
    requires Balanced(Chronological(orders, payments, customerId), rows)
    requires |rows| > 0
    ensures rows[|rows| - 1].balance
         == Sum(WithKey(orders, OrderCustomer, customerId), OrderTotal)
            - Sum(WithKey(payments, PaymentCustomer, customerId), PaymentAmount)
  {
    BalanceSteps(Chronological(orders, payments, customerId), rows);
    NetChange(orders, payments, customerId);
  }
}
