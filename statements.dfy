/** The account statements of src/pages/Statements.tsx: the filtered orders
    and payments are grouped per customer into a dictionary of statements,
    each statement's transactions are sorted by date, and the statements are
    listed by customer name. */
module Statements {
  import opened Ledger
  import opened Seqs
  import opened Sorting
  import opened Queries

  datatype TxKind = OrderTx | PaymentTx

  /** One row of a statement. An order's description lists its items, kept
      here as `lines`; a payment's description is fixed and `lines` is empty. */
  datatype Transaction = Transaction(date: int, kind: TxKind, lines: seq<OrderItem>,
                                     billed: int, paid: int, customerName: string)

  datatype Statement = Statement(customerId: string, customerName: string,
                                 transactions: seq<Transaction>, totalBilled: int, totalPaid: int)

  function OrderEntry(o: Order): Transaction {
    Transaction(o.orderDate, OrderTx, o.items, o.totalAmount, 0, o.customerName)
  }

  function PaymentEntry(p: Payment): Transaction {
    Transaction(p.paymentDate, PaymentTx, [], 0, p.amount, p.customerName)
  }

  function TxBilled(t: Transaction): int { t.billed }
  function TxPaid(t: Transaction): int { t.paid }
  function IsOrderEntry(t: Transaction): bool { t.kind == OrderTx }
  function StatementCustomer(st: Statement): string { st.customerId }
  function StatementBilled(st: Statement): int { st.totalBilled }
  function StatementPaid(st: Statement): int { st.totalPaid }

  /** The criteria the page hands to both queries: an empty customer
      selection becomes undefined; status and product are never set. */
  function StatementFilter(customer: string, dateFrom: Option<int>, dateTo: Option<int>): FilterOptions {
    FilterOptions(dateFrom, dateTo, if customer == "" then None else Some(customer), None, None)
  }

  /** The transactions one customer's orders push, in the order met. */
  function OrderEntries(os: seq<Order>, c: string): seq<Transaction> {
    if os == [] then []
    else
      var last := os[|os| - 1];
      OrderEntries(os[..|os| - 1], c) + (if last.customerId == c then [OrderEntry(last)] else [])
  }

  /** The transactions one customer's payments push, in the order met. */
  function PaymentEntries(ps: seq<Payment>, c: string): seq<Transaction> {
    if ps == [] then []
    else
      var last := ps[|ps| - 1];
      PaymentEntries(ps[..|ps| - 1], c) + (if last.customerId == c then [PaymentEntry(last)] else [])
  }

  /** `totalBilled += order.totalAmount` over one customer's orders. */
  function Billed(os: seq<Order>, c: string): int {
    if os == [] then 0
    else
      var last := os[|os| - 1];
      Billed(os[..|os| - 1], c) + (if last.customerId == c then last.totalAmount else 0)
  }

  /** `totalPaid += payment.amount` over one customer's payments. */
  function Paid(ps: seq<Payment>, c: string): int {
    if ps == [] then 0
    else
      var last := ps[|ps| - 1];
      Paid(ps[..|ps| - 1], c) + (if last.customerId == c then last.amount else 0)
  }

  /** The name a statement is opened with: that of the customer's first
      order, or of the first payment when the customer has no order. */
  function BucketName(os: seq<Order>, ps: seq<Payment>, c: string): string {
    match Find(os, OrderCustomer, c)
    case Some(o) => o.customerName
    case None =>
      match Find(ps, PaymentCustomer, c)
      case Some(p) => p.customerName
      case None => ""
  }

  /** A customer's statement as the two loops leave it. */
  function RawStatement(os: seq<Order>, ps: seq<Payment>, c: string): Statement {
    Statement(c, BucketName(os, ps, c), OrderEntries(os, c) + PaymentEntries(ps, c), Billed(os, c), Paid(ps, c))
  }

  /** The comparator `date(a) - date(b)` read as "a may precede b". */
  predicate EarlierFirst(a: Transaction, b: Transaction) { a.date - b.date <= 0 }

  /** A statement with its transactions sorted by date, stably. */
  function SortBucket(st: Statement): Statement {
    assert TotalPreorder(EarlierFirst);
    st.(transactions := StableSort(st.transactions, EarlierFirst))
  }

  /** The key order of the dictionary: customers of the orders as first met,
      then customers met first among the payments. */
  function BucketOrder(os: seq<Order>, ps: seq<Payment>): seq<string> {
    if ps == [] then KeyOrder(os, OrderCustomer)
    else
      var init, c := ps[..|ps| - 1], ps[|ps| - 1].customerId;
      if Find(os, OrderCustomer, c).Some? || Find(init, PaymentCustomer, c).Some?
      then BucketOrder(os, init)
      else BucketOrder(os, init) + [c]
  }

  /** The sorted statements, one per key, in key order. */
  function Buckets(os: seq<Order>, ps: seq<Payment>, keys: seq<string>): (r: seq<Statement>)
    ensures |r| == |keys|
    ensures forall i :: 0 <= i < |keys| ==> r[i] == SortBucket(RawStatement(os, ps, keys[i]))
  {
    seq(|keys|, i requires 0 <= i < |keys| => SortBucket(RawStatement(os, ps, keys[i])))
  }

  lemma BucketsSnoc(os: seq<Order>, ps: seq<Payment>, keys: seq<string>, c: string)
    ensures Buckets(os, ps, keys + [c]) == Buckets(os, ps, keys) + [SortBucket(RawStatement(os, ps, c))]
  {
  }

  /** `localeCompare` is a total preorder on names. */
  ghost predicate Collation(collate: (string, string) -> int) {
    && (forall x, y :: collate(x, y) <= 0 || collate(y, x) <= 0)
    && (forall x, y, z :: collate(x, y) <= 0 && collate(y, z) <= 0 ==> collate(x, z) <= 0)
  }

  /** The comparator `a.customerName.localeCompare(b.customerName)` read as
      "a may precede b". */
  function ByName(collate: (string, string) -> int): (Statement, Statement) -> bool {
    (a: Statement, b: Statement) => collate(a.customerName, b.customerName) <= 0
  }

  lemma ByNameIsPreorder(collate: (string, string) -> int)
    requires Collation(collate)
    ensures TotalPreorder(ByName(collate))
  {
    var le := ByName(collate);
    forall a, b ensures le(a, b) || le(b, a) {
      assert collate(a.customerName, b.customerName) <= 0 || collate(b.customerName, a.customerName) <= 0;
    }
    forall a, b, c | le(a, b) && le(b, c) ensures le(a, c) {
      assert collate(a.customerName, b.customerName) <= 0 && collate(b.customerName, c.customerName) <= 0;
    }
  }

  /** What the page lists for the filtered orders `os` and payments `ps`. */
  function StatementsOf(os: seq<Order>, ps: seq<Payment>, collate: (string, string) -> int): (r: seq<Statement>)
    requires Collation(collate)
    ensures forall i, j :: 0 <= i < j < |r| ==> collate(r[i].customerName, r[j].customerName) <= 0
  {
    ByNameIsPreorder(collate);
    var r := StableSort(Buckets(os, ps, BucketOrder(os, ps)), ByName(collate));
    assert forall i, j :: 0 <= i < j < |r| ==> ByName(collate)(r[i], r[j]);
    r
  }

  // ---------------------------------------------------------------------
  // The dictionary the two loops fill

  /** After the orders `os` and payments `ps`: one statement per customer
      met, holding what the loops have pushed and added for that customer. */
  function BookOf(os: seq<Order>, ps: seq<Payment>): map<string, Statement> {
    map c | c in BucketOrder(os, ps) :: RawStatement(os, ps, c)
  }

  lemma {:induction false} UnseenOrders(os: seq<Order>, c: string)
    requires Find(os, OrderCustomer, c).None?
    ensures OrderEntries(os, c) == [] && Billed(os, c) == 0
  {
    if os != [] {
      UnseenOrders(os[..|os| - 1], c);
    }
  }

  lemma {:induction false} UnseenPayments(ps: seq<Payment>, c: string)
    requires Find(ps, PaymentCustomer, c).None?
    ensures PaymentEntries(ps, c) == [] && Paid(ps, c) == 0
  {
    if ps != [] {
      UnseenPayments(ps[..|ps| - 1], c);
    }
  }

  /** The statement an order is booked on: its customer's, or a fresh one
      under the order's customer name. */
  function OpenForOrder(book: map<string, Statement>, o: Order): Statement {
    if o.customerId in book then book[o.customerId] else Statement(o.customerId, o.customerName, [], 0, 0)
  }

  /** Pushes the order's row and adds its total to what was billed. */
  function PushOrder(st: Statement, o: Order): Statement {
    st.(transactions := st.transactions + [OrderEntry(o)], totalBilled := st.totalBilled + o.totalAmount)
  }

  /** An order opens its customer's statement if need be, is pushed onto it
      and adds its total to what was billed. */
  lemma BookOrder(os: seq<Order>, o: Order)
    ensures var book := BookOf(os, []);
      && BucketOrder(os + [o], []) == (if o.customerId in book then BucketOrder(os, []) else BucketOrder(os, []) + [o.customerId])
      && BookOf(os + [o], []) == book[o.customerId := PushOrder(OpenForOrder(book, o), o)]
  {
    var book := BookOf(os, []);
    var book' := book[o.customerId := PushOrder(OpenForOrder(book, o), o)];
    var after := BookOf(os + [o], []);
    KeyOrderSnoc(os, o, OrderCustomer);
    KeyOrderHas(os, OrderCustomer, o.customerId);
    assert forall d :: d in after <==> d in book';
    forall d | d in after ensures after[d] == book'[d] {
      BookOrderAt(os, o, d);
    }
    assert after == book';
  }

  /** The effect of one order on one customer's statement. */
  lemma BookOrderAt(os: seq<Order>, o: Order, d: string)
    requires d in BucketOrder(os + [o], [])
    ensures var book := BookOf(os, []);
      RawStatement(os + [o], [], d) == if d == o.customerId then PushOrder(OpenForOrder(book, o), o) else book[d]
  {
    if d == o.customerId {
      BookOrderOwn(os, o);
    } else {
      OrderSnoc(os, o, d);
      KeyOrderSnoc(os, o, OrderCustomer);
      KeyOrderHas(os, OrderCustomer, d);
    }
  }

  /** The effect of an order on its own customer's statement. */
  lemma BookOrderOwn(os: seq<Order>, o: Order)
    ensures RawStatement(os + [o], [], o.customerId) == PushOrder(OpenForOrder(BookOf(os, []), o), o)
  {
    var c := o.customerId;
    OrderSnoc(os, o, c);
    KeyOrderHas(os, OrderCustomer, c);
    if Find(os, OrderCustomer, c).None? {
      UnseenOrders(os, c);
    } else {
      assert c in BookOf(os, []);
    }
  }

  /** One more order extends only its own customer's rows and billed total;
      the name is that of the first order met. */
  lemma OrderSnoc(os: seq<Order>, o: Order, d: string)
    ensures OrderEntries(os + [o], d) == OrderEntries(os, d) + (if o.customerId == d then [OrderEntry(o)] else [])
    ensures Billed(os + [o], d) == Billed(os, d) + (if o.customerId == d then o.totalAmount else 0)
    ensures Find(os, OrderCustomer, d).Some? ==> BucketName(os + [o], [], d) == BucketName(os, [], d)
    ensures Find(os, OrderCustomer, d).None? && o.customerId == d ==> BucketName(os + [o], [], d) == o.customerName
  {
    assert (os + [o])[..|os|] == os;
    FindSnoc(os, o, OrderCustomer, d);
  }

  /** The statement a payment is booked on: its customer's, or a fresh one
      under the payment's customer name. */
  function OpenForPayment(book: map<string, Statement>, p: Payment): Statement {
    if p.customerId in book then book[p.customerId] else Statement(p.customerId, p.customerName, [], 0, 0)
  }

  /** Pushes the payment's row and adds its amount to what was paid. */
  function PushPayment(st: Statement, p: Payment): Statement {
    st.(transactions := st.transactions + [PaymentEntry(p)], totalPaid := st.totalPaid + p.amount)
  }

  /** A payment opens its customer's statement if need be, is pushed onto it
      and adds its amount to what was paid. */
  lemma BookPayment(os: seq<Order>, ps: seq<Payment>, p: Payment)
    ensures var book := BookOf(os, ps);
      && BucketOrder(os, ps + [p]) == (if p.customerId in book then BucketOrder(os, ps) else BucketOrder(os, ps) + [p.customerId])
      && BookOf(os, ps + [p]) == book[p.customerId := PushPayment(OpenForPayment(book, p), p)]
  {
    var book := BookOf(os, ps);
    var book' := book[p.customerId := PushPayment(OpenForPayment(book, p), p)];
    var after := BookOf(os, ps + [p]);
    assert (ps + [p])[..|ps|] == ps;
    BucketOrderHas(os, ps);
    assert forall d :: d in after <==> d in book';
    forall d | d in after ensures after[d] == book'[d] {
      BookPaymentAt(os, ps, p, d);
    }
    assert after == book';
  }

  /** The effect of one payment on one customer's statement. */
  lemma BookPaymentAt(os: seq<Order>, ps: seq<Payment>, p: Payment, d: string)
    requires d in BucketOrder(os, ps + [p])
    ensures var book := BookOf(os, ps);
      RawStatement(os, ps + [p], d) == if d == p.customerId then PushPayment(OpenForPayment(book, p), p) else book[d]
  {
    PaymentSnoc(os, ps, p, d);
    BucketOrderHas(os, ps);
    if d == p.customerId {
      BookPaymentOwn(os, ps, p);
    } else {
      assert (ps + [p])[..|ps|] == ps;
    }
  }

  /** The effect of a payment on its own customer's statement. */
  lemma BookPaymentOwn(os: seq<Order>, ps: seq<Payment>, p: Payment)
    ensures RawStatement(os, ps + [p], p.customerId) == PushPayment(OpenForPayment(BookOf(os, ps), p), p)
  {
    var c := p.customerId;
    PaymentSnoc(os, ps, p, c);
    BucketOrderHas(os, ps);
    if Find(os, OrderCustomer, c).None? && Find(ps, PaymentCustomer, c).None? {
      UnseenOrders(os, c);
      UnseenPayments(ps, c);
    } else {
      assert c in BookOf(os, ps);
    }
    assert OrderEntries(os, c) + (PaymentEntries(ps, c) + [PaymentEntry(p)])
        == (OrderEntries(os, c) + PaymentEntries(ps, c)) + [PaymentEntry(p)];
  }

  /** One more payment extends only its own customer's rows and paid total;
      the name is that of the first order or payment met. */
  lemma PaymentSnoc(os: seq<Order>, ps: seq<Payment>, p: Payment, d: string)
    ensures PaymentEntries(ps + [p], d) == PaymentEntries(ps, d) + (if p.customerId == d then [PaymentEntry(p)] else [])
    ensures Paid(ps + [p], d) == Paid(ps, d) + (if p.customerId == d then p.amount else 0)
    ensures Find(ps, PaymentCustomer, d).Some? ==> BucketName(os, ps + [p], d) == BucketName(os, ps, d)
    ensures Find(os, OrderCustomer, d).Some? ==> BucketName(os, ps + [p], d) == BucketName(os, ps, d)
    ensures Find(os, OrderCustomer, d).None? && Find(ps, PaymentCustomer, d).None? && p.customerId == d ==>
      BucketName(os, ps + [p], d) == p.customerName
  {
    assert (ps + [p])[..|ps|] == ps;
    FindSnoc(ps, p, PaymentCustomer, d);
  }

  /** The key order lists each customer met exactly once. */
  lemma {:induction false} BucketOrderHas(os: seq<Order>, ps: seq<Payment>)
    ensures Distinct(BucketOrder(os, ps))
    ensures forall c :: c in BucketOrder(os, ps) <==> Find(os, OrderCustomer, c).Some? || Find(ps, PaymentCustomer, c).Some?
  {
    if ps == [] {
      KeyOrderIsFirstAppearances(os, OrderCustomer);
      forall c ensures c in KeyOrder(os, OrderCustomer) <==> Find(os, OrderCustomer, c).Some? {
        KeyOrderHas(os, OrderCustomer, c);
      }
    } else {
      var init, p := ps[..|ps| - 1], ps[|ps| - 1];
      assert ps == init + [p];
      BucketOrderHas(os, init);
      forall c ensures Find(ps, PaymentCustomer, c) == if Find(init, PaymentCustomer, c).Some? then Find(init, PaymentCustomer, c) else if p.customerId == c then Some(p) else None {
        FindSnoc(init, p, PaymentCustomer, c);
      }
    }
  }

  // ---------------------------------------------------------------------
  // The computation, loop by loop

  /** One pass of the order loop: opens the customer's statement if need
      be, pushes the order's row and adds its total to what was billed. */
  method PostOrder(o: Order, ghost os: seq<Order>, keys: seq<string>, book: map<string, Statement>)
    returns (keys': seq<string>, book': map<string, Statement>)
    requires keys == BucketOrder(os, []) && book == BookOf(os, [])
    ensures keys' == BucketOrder(os + [o], []) && book' == BookOf(os + [o], [])
  {
    BookOrder(os, o);
    var st := OpenForOrder(book, o);
    keys' := keys;
    if o.customerId !in book {
      keys' := keys' + [o.customerId];
    }
    book' := book[o.customerId := PushOrder(st, o)];
  }

  /** The loop over the filtered orders. */
  method BookOrders(os: seq<Order>) returns (keys: seq<string>, book: map<string, Statement>)
    ensures keys == BucketOrder(os, []) && book == BookOf(os, [])
  {
    keys, book := [], map[];
    var i := 0;
    while i < |os|
      invariant 0 <= i <= |os|
      invariant keys == BucketOrder(os[..i], []) && book == BookOf(os[..i], [])
    {
      TakeSnoc(os, i);
      keys, book := PostOrder(os[i], os[..i], keys, book);
      i := i + 1;
    }
    assert os[..i] == os;
  }

  /** One pass of the payment loop: opens the customer's statement if need
      be, pushes the payment's row and adds its amount to what was paid. */
  method PostPayment(p: Payment, ghost os: seq<Order>, ghost ps: seq<Payment>, keys: seq<string>, book: map<string, Statement>)
    returns (keys': seq<string>, book': map<string, Statement>)
    requires keys == BucketOrder(os, ps) && book == BookOf(os, ps)
    ensures keys' == BucketOrder(os, ps + [p]) && book' == BookOf(os, ps + [p])
  {
    BookPayment(os, ps, p);
    var st := OpenForPayment(book, p);
    keys' := keys;
    if p.customerId !in book {
      keys' := keys' + [p.customerId];
    }
    book' := book[p.customerId := PushPayment(st, p)];
  }

  /** The loop over the filtered payments, continuing the orders' dictionary. */
  method BookPayments(os: seq<Order>, ps: seq<Payment>, keys0: seq<string>, book0: map<string, Statement>)
    returns (keys: seq<string>, book: map<string, Statement>)
    requires keys0 == BucketOrder(os, []) && book0 == BookOf(os, [])
    ensures keys == BucketOrder(os, ps) && book == BookOf(os, ps)
  {
    keys, book := keys0, book0;
    var j := 0;
    assert ps[..j] == [];
    while j < |ps|
      invariant 0 <= j <= |ps|
      invariant keys == BucketOrder(os, ps[..j]) && book == BookOf(os, ps[..j])
    {
      TakeSnoc(ps, j);
      keys, book := PostPayment(ps[j], os, ps[..j], keys, book);
      j := j + 1;
    }
    assert ps[..j] == ps;
  }

  /** `Object.values(statements).forEach(...)`: sorts each statement's
      transactions by date. */
  method SortEach(ghost os: seq<Order>, ghost ps: seq<Payment>, keys: seq<string>, book0: map<string, Statement>)
    returns (book: map<string, Statement>)
    requires keys == BucketOrder(os, ps) && book0 == BookOf(os, ps)
    ensures forall c :: c in book <==> c in keys
    ensures forall i :: 0 <= i < |keys| ==> book[keys[i]] == SortBucket(RawStatement(os, ps, keys[i]))
  {
    BucketOrderHas(os, ps);
    book := book0;
    var k := 0;
    while k < |keys|
      invariant 0 <= k <= |keys|
      invariant forall c :: c in book <==> c in keys
      invariant forall i :: 0 <= i < |keys| ==>
        book[keys[i]] == if i < k then SortBucket(RawStatement(os, ps, keys[i])) else RawStatement(os, ps, keys[i])
    {
      ghost var before := book;
      book := book[keys[k] := SortBucket(book[keys[k]])];
      forall i | 0 <= i < |keys|
        ensures book[keys[i]] == if i < k + 1 then SortBucket(RawStatement(os, ps, keys[i])) else RawStatement(os, ps, keys[i])
      {
        if i != k {
          assert keys[i] != keys[k];
          assert book[keys[i]] == before[keys[i]];
        }
      }
      k := k + 1;
    }
  }

  /** `Object.entries(statements).map(...)`: the statements in key order. */
  method ListStatements(ghost os: seq<Order>, ghost ps: seq<Payment>, keys: seq<string>, book: map<string, Statement>)
    returns (r: seq<Statement>)
    requires forall c :: c in book <==> c in keys
    requires forall i :: 0 <= i < |keys| ==> book[keys[i]] == SortBucket(RawStatement(os, ps, keys[i]))
    ensures r == Buckets(os, ps, keys)
  {
    r := [];
    var k := 0;
    while k < |keys|
      invariant 0 <= k <= |keys|
      invariant r == Buckets(os, ps, keys[..k])
    {
      assert keys[k] in keys;
      TakeSnoc(keys, k);
      BucketsSnoc(os, ps, keys[..k], keys[k]);
      r := r + [book[keys[k]]];
      k := k + 1;
    }
    assert keys[..k] == keys;
  }

  /** `customerStatements` for the selected customer (empty for all) and
      date range; `collate` is the engine's `localeCompare`. */
  method CustomerStatements(orders: seq<Order>, payments: seq<Payment>,
                            customer: string, dateFrom: Option<int>, dateTo: Option<int>,
                            collate: (string, string) -> int)
    returns (r: seq<Statement>)
    requires Collation(collate)
    ensures var f := StatementFilter(customer, dateFrom, dateTo);
      r == StatementsOf(GetFilteredOrders(orders, f), GetFilteredPayments(payments, f), collate)
  {
    var f := StatementFilter(customer, dateFrom, dateTo);
    var os := GetFilteredOrders(orders, f);
    var ps := GetFilteredPayments(payments, f);
    var keys, book := BookOrders(os);
    keys, book := BookPayments(os, ps, keys, book);
    book := SortEach(os, ps, keys, book);
    var listed := ListStatements(os, ps, keys, book);
    ByNameIsPreorder(collate);
    r := StableSort(listed, ByName(collate));
  }

  /** The grand totals below the statements. */
  function GrandBilled(r: seq<Statement>): int { Sum(r, StatementBilled) }
  function GrandPaid(r: seq<Statement>): int { Sum(r, StatementPaid) }

  /** What a statement shows as pending: billed minus paid, not floored. */
  function Pending(st: Statement): int { st.totalBilled - st.totalPaid }

  // ---------------------------------------------------------------------
  // What the statements promise

  /** Each order of the customer yields exactly one order row, in the order met. */
  lemma {:induction false} OrderRows(os: seq<Order>, c: string)
    ensures |OrderEntries(os, c)| == |WithKey(os, OrderCustomer, c)|
    ensures forall i :: 0 <= i < |OrderEntries(os, c)| ==> OrderEntries(os, c)[i] == OrderEntry(WithKey(os, OrderCustomer, c)[i])
  {
    if os != [] {
      var init, last := os[..|os| - 1], os[|os| - 1];
      assert os == init + [last];
      OrderRows(init, c);
      WithKeySnoc(init, last, OrderCustomer, c);
    }
  }

  /** The billed total is the sum of the customer's order totals, and of the
      billed column of the order rows, whose paid column is empty. */
  lemma OrderTotals(os: seq<Order>, c: string)
    ensures Billed(os, c) == Sum(WithKey(os, OrderCustomer, c), OrderTotal)
    ensures Billed(os, c) == Sum(OrderEntries(os, c), TxBilled) && Sum(OrderEntries(os, c), TxPaid) == 0
  {
    BilledIsOrderSum(os, c);
    BilledIsColumnSum(os, c);
  }

  lemma {:induction false} BilledIsOrderSum(os: seq<Order>, c: string)
    ensures Billed(os, c) == Sum(WithKey(os, OrderCustomer, c), OrderTotal)
  {
    if os != [] {
      var init, last := os[..|os| - 1], os[|os| - 1];
      BilledIsOrderSum(init, c);
      if last.customerId == c {
        SumSnoc(WithKey(init, OrderCustomer, c), last, OrderTotal);
      }
    }
  }

  lemma {:induction false} BilledIsColumnSum(os: seq<Order>, c: string)
    ensures Billed(os, c) == Sum(OrderEntries(os, c), TxBilled) && Sum(OrderEntries(os, c), TxPaid) == 0
  {
    if os != [] {
      var init, last := os[..|os| - 1], os[|os| - 1];
      BilledIsColumnSum(init, c);
      if last.customerId == c {
        assert OrderEntries(os, c) == OrderEntries(init, c) + [OrderEntry(last)];
        SumSnoc(OrderEntries(init, c), OrderEntry(last), TxBilled);
        SumSnoc(OrderEntries(init, c), OrderEntry(last), TxPaid);
      } else {
        assert OrderEntries(os, c) == OrderEntries(init, c);
      }
    }
  }

  lemma {:induction false} OrderKinds(os: seq<Order>, c: string)
    ensures forall t :: t in OrderEntries(os, c) ==> t.kind == OrderTx
  {
    if os != [] {
      OrderKinds(os[..|os| - 1], c);
    }
  }

  /** Each payment of the customer yields exactly one payment row, in the order met. */
  lemma {:induction false} PaymentRows(ps: seq<Payment>, c: string)
    ensures |PaymentEntries(ps, c)| == |WithKey(ps, PaymentCustomer, c)|
    ensures forall i :: 0 <= i < |PaymentEntries(ps, c)| ==> PaymentEntries(ps, c)[i] == PaymentEntry(WithKey(ps, PaymentCustomer, c)[i])
  {
    if ps != [] {
      var init, last := ps[..|ps| - 1], ps[|ps| - 1];
      assert ps == init + [last];
      PaymentRows(init, c);
      WithKeySnoc(init, last, PaymentCustomer, c);
    }
  }

  /** The paid total is the sum of the customer's payment amounts, and of the
      paid column of the payment rows, whose billed column is empty. */
  lemma PaymentTotals(ps: seq<Payment>, c: string)
    ensures Paid(ps, c) == Sum(WithKey(ps, PaymentCustomer, c), PaymentAmount)
    ensures Paid(ps, c) == Sum(PaymentEntries(ps, c), TxPaid) && Sum(PaymentEntries(ps, c), TxBilled) == 0
  {
    PaidIsPaymentSum(ps, c);
    PaidIsColumnSum(ps, c);
  }

  lemma {:induction false} PaidIsPaymentSum(ps: seq<Payment>, c: string)
    ensures Paid(ps, c) == Sum(WithKey(ps, PaymentCustomer, c), PaymentAmount)
  {
    if ps != [] {
      var init, last := ps[..|ps| - 1], ps[|ps| - 1];
      PaidIsPaymentSum(init, c);
      if last.customerId == c {
        SumSnoc(WithKey(init, PaymentCustomer, c), last, PaymentAmount);
      }
    }
  }

  lemma {:induction false} PaidIsColumnSum(ps: seq<Payment>, c: string)
    ensures Paid(ps, c) == Sum(PaymentEntries(ps, c), TxPaid) && Sum(PaymentEntries(ps, c), TxBilled) == 0
  {
    if ps != [] {
      var init, last := ps[..|ps| - 1], ps[|ps| - 1];
      PaidIsColumnSum(init, c);
      if last.customerId == c {
        assert PaymentEntries(ps, c) == PaymentEntries(init, c) + [PaymentEntry(last)];
        SumSnoc(PaymentEntries(init, c), PaymentEntry(last), TxPaid);
        SumSnoc(PaymentEntries(init, c), PaymentEntry(last), TxBilled);
      } else {
        assert PaymentEntries(ps, c) == PaymentEntries(init, c);
      }
    }
  }

  lemma {:induction false} PaymentKinds(ps: seq<Payment>, c: string)
    ensures forall t :: t in PaymentEntries(ps, c) ==> t.kind == PaymentTx
  {
    if ps != [] {
      PaymentKinds(ps[..|ps| - 1], c);
    }
  }

  /** Every listed statement is the sorted statement of its own customer. */
  lemma StatementIsBucket(os: seq<Order>, ps: seq<Payment>, collate: (string, string) -> int, st: Statement)
    requires Collation(collate)
    requires st in StatementsOf(os, ps, collate)
    ensures st.customerId in BucketOrder(os, ps)
    ensures st == SortBucket(RawStatement(os, ps, st.customerId))
  {
    var keys := BucketOrder(os, ps);
    var b := Buckets(os, ps, keys);
    ByNameIsPreorder(collate);
    StableSortMembers(b, ByName(collate));
    var i :| 0 <= i < |b| && b[i] == st;
    assert keys[i] in keys;
  }

  /** No two statements are for the same customer. */
  lemma StatementsDistinct(os: seq<Order>, ps: seq<Payment>, collate: (string, string) -> int)
    requires Collation(collate)
    ensures var r := StatementsOf(os, ps, collate);
      forall i, j :: 0 <= i < j < |r| ==> r[i].customerId != r[j].customerId
  {
    var b := Buckets(os, ps, BucketOrder(os, ps));
    BucketOrderHas(os, ps);
    ByNameIsPreorder(collate);
    assert DistinctKeys(b, StatementCustomer);
    StableSortKeepsDistinctKeys(b, ByName(collate), StatementCustomer);
  }

  /** There is a statement for every customer with a filtered order or
      payment, and for no other customer. */
  lemma StatementsCover(os: seq<Order>, ps: seq<Payment>, collate: (string, string) -> int)
    requires Collation(collate)
    ensures var r := StatementsOf(os, ps, collate);
      && (forall st :: st in r ==>
            (exists o :: o in os && o.customerId == st.customerId) || (exists p :: p in ps && p.customerId == st.customerId))
      && (forall o :: o in os ==> exists st :: st in r && st.customerId == o.customerId)
      && (forall p :: p in ps ==> exists st :: st in r && st.customerId == p.customerId)
  {
    var r := StatementsOf(os, ps, collate);
    BucketOrderHas(os, ps);
    ListedCustomers(os, ps, collate);
    forall st | st in r
      ensures (exists o :: o in os && o.customerId == st.customerId) || (exists p :: p in ps && p.customerId == st.customerId)
    {
      StatementIsBucket(os, ps, collate, st);
      FindFound(os, OrderCustomer, st.customerId);
      FindFound(ps, PaymentCustomer, st.customerId);
    }
    forall o | o in os ensures exists st :: st in r && st.customerId == o.customerId {
      FindFound(os, OrderCustomer, o.customerId);
    }
    forall p | p in ps ensures exists st :: st in r && st.customerId == p.customerId {
      FindFound(ps, PaymentCustomer, p.customerId);
    }
  }

  /** Every key of the dictionary has its statement listed. */
  lemma ListedCustomers(os: seq<Order>, ps: seq<Payment>, collate: (string, string) -> int)
    requires Collation(collate)
    ensures forall c :: c in BucketOrder(os, ps) ==>
      exists st :: st in StatementsOf(os, ps, collate) && st.customerId == c
  {
    var keys := BucketOrder(os, ps);
    var b := Buckets(os, ps, keys);
    ByNameIsPreorder(collate);
    StableSortMembers(b, ByName(collate));
    forall c | c in keys ensures exists st :: st in StatementsOf(os, ps, collate) && st.customerId == c {
      var i :| 0 <= i < |keys| && keys[i] == c;
      assert b[i] in b;
    }
  }

  /** Sorting a customer's rows by date keeps them, puts them in ascending
      date order with an order before a payment of the same date. */
  lemma BucketRows(os: seq<Order>, ps: seq<Payment>, c: string)
    ensures var st := SortBucket(RawStatement(os, ps, c));
      && multiset(st.transactions) == multiset(OrderEntries(os, c)) + multiset(PaymentEntries(ps, c))
      && (forall i, j :: 0 <= i < j < |st.transactions| ==> st.transactions[i].date <= st.transactions[j].date)
      && (forall i, j :: 0 <= i < j < |st.transactions| && st.transactions[i].kind == PaymentTx && st.transactions[j].kind == OrderTx
            ==> st.transactions[i].date < st.transactions[j].date)
  {
    var a, b := OrderEntries(os, c), PaymentEntries(ps, c);
    OrderKinds(os, c);
    PaymentKinds(ps, c);
    assert TotalPreorder(EarlierFirst);
    var t := StableSort(a + b, EarlierFirst);
    assert SortedBy(t, EarlierFirst);
    StableSortKeepsBlockOrder(a, b, EarlierFirst, IsOrderEntry);
    assert BlockOrdered(t, EarlierFirst, IsOrderEntry);
  }

  /** Sorting a customer's rows keeps the totals equal to the sums of the rows. */
  lemma BucketTotals(os: seq<Order>, ps: seq<Payment>, c: string)
    ensures var st := SortBucket(RawStatement(os, ps, c));
      && st.totalBilled == Sum(st.transactions, TxBilled)
      && st.totalPaid == Sum(st.transactions, TxPaid)
  {
    var a, b := OrderEntries(os, c), PaymentEntries(ps, c);
    OrderTotals(os, c);
    PaymentTotals(ps, c);
    assert TotalPreorder(EarlierFirst);
    var t := StableSort(a + b, EarlierFirst);
    SumPermutation(t, a + b, TxBilled);
    SumPermutation(t, a + b, TxPaid);
    SumAppend(a, b, TxBilled);
    SumAppend(a, b, TxPaid);
  }

  /** A statement's rows are its customer's filtered orders and payments,
      in ascending date order, an order before a payment of the same date,
      and its totals are the sums of its rows. */
  lemma StatementRows(os: seq<Order>, ps: seq<Payment>, collate: (string, string) -> int, st: Statement)
    requires Collation(collate)
    requires st in StatementsOf(os, ps, collate)
    ensures var c := st.customerId;
      && multiset(st.transactions) == multiset(OrderEntries(os, c)) + multiset(PaymentEntries(ps, c))
      && (forall i, j :: 0 <= i < j < |st.transactions| ==> st.transactions[i].date <= st.transactions[j].date)
      && (forall i, j :: 0 <= i < j < |st.transactions| && st.transactions[i].kind == PaymentTx && st.transactions[j].kind == OrderTx
            ==> st.transactions[i].date < st.transactions[j].date)
      && st.totalBilled == Sum(st.transactions, TxBilled)
      && st.totalPaid == Sum(st.transactions, TxPaid)
  {
    StatementIsBucket(os, ps, collate, st);
    BucketRows(os, ps, st.customerId);
    BucketTotals(os, ps, st.customerId);
  }

  /** The name rule: the first filtered order's name, else the first filtered payment's. */
  lemma StatementName(os: seq<Order>, ps: seq<Payment>, collate: (string, string) -> int, st: Statement)
    requires Collation(collate)
    requires st in StatementsOf(os, ps, collate)
    ensures var c := st.customerId;
      var firstOrder, firstPayment := FirstIndex(os, OrderCustomer, c), FirstIndex(ps, PaymentCustomer, c);
      && (firstOrder.Some? || firstPayment.Some?)
      && st.customerName == if firstOrder.Some? then os[firstOrder.value].customerName else ps[firstPayment.value].customerName
  {
    var c := st.customerId;
    StatementIsBucket(os, ps, collate, st);
    BucketOrderHas(os, ps);
    FindFirst(os, OrderCustomer, c);
    FindFirst(ps, PaymentCustomer, c);
  }

  lemma BucketsTotals(os: seq<Order>, ps: seq<Payment>, keys: seq<string>)
    ensures Sum(Buckets(os, ps, keys), StatementBilled) == SumPerKey(os, OrderCustomer, OrderTotal, keys)
    ensures Sum(Buckets(os, ps, keys), StatementPaid) == SumPerKey(ps, PaymentCustomer, PaymentAmount, keys)
  {
    BucketsBilled(os, ps, keys);
    BucketsPaid(os, ps, keys);
  }

  lemma BucketsBilled(os: seq<Order>, ps: seq<Payment>, keys: seq<string>)
    ensures Sum(Buckets(os, ps, keys), StatementBilled) == SumPerKey(os, OrderCustomer, OrderTotal, keys)
  {
    var b := Buckets(os, ps, keys);
    forall i | 0 <= i < |b| ensures StatementBilled(b[i]) == BilledBy(os)(keys[i]) {
      assert b[i] == SortBucket(RawStatement(os, ps, keys[i]));
    }
    SumPointwise(b, StatementBilled, keys, BilledBy(os));
    BilledPerKey(os, keys);
  }

  lemma BucketsPaid(os: seq<Order>, ps: seq<Payment>, keys: seq<string>)
    ensures Sum(Buckets(os, ps, keys), StatementPaid) == SumPerKey(ps, PaymentCustomer, PaymentAmount, keys)
  {
    var b := Buckets(os, ps, keys);
    forall i | 0 <= i < |b| ensures StatementPaid(b[i]) == PaidBy(ps)(keys[i]) {
      assert b[i] == SortBucket(RawStatement(os, ps, keys[i]));
    }
    SumPointwise(b, StatementPaid, keys, PaidBy(ps));
    PaidPerKey(ps, keys);
  }

  /** What each customer was billed, and paid. */
  function BilledBy(os: seq<Order>): string -> int { (c: string) => Billed(os, c) }
  function PaidBy(ps: seq<Payment>): string -> int { (c: string) => Paid(ps, c) }

  lemma {:induction false} BilledPerKey(os: seq<Order>, keys: seq<string>)
    ensures Sum(keys, BilledBy(os)) == SumPerKey(os, OrderCustomer, OrderTotal, keys)
  {
    if keys != [] {
      BilledPerKey(os, keys[..|keys| - 1]);
      BilledIsOrderSum(os, keys[|keys| - 1]);
    }
  }

  lemma {:induction false} PaidPerKey(ps: seq<Payment>, keys: seq<string>)
    ensures Sum(keys, PaidBy(ps)) == SumPerKey(ps, PaymentCustomer, PaymentAmount, keys)
  {
    if keys != [] {
      PaidPerKey(ps, keys[..|keys| - 1]);
      PaidIsPaymentSum(ps, keys[|keys| - 1]);
    }
  }

  /** The grand totals are the sums over every filtered order and payment. */
  lemma GrandTotals(os: seq<Order>, ps: seq<Payment>, collate: (string, string) -> int)
    requires Collation(collate)
    ensures GrandBilled(StatementsOf(os, ps, collate)) == Sum(os, OrderTotal)
    ensures GrandPaid(StatementsOf(os, ps, collate)) == Sum(ps, PaymentAmount)
  {
    var keys := BucketOrder(os, ps);
    var b := Buckets(os, ps, keys);
    BucketOrderHas(os, ps);
    ByNameIsPreorder(collate);
    SumPermutation(StatementsOf(os, ps, collate), b, StatementBilled);
    SumPermutation(StatementsOf(os, ps, collate), b, StatementPaid);
    BucketsTotals(os, ps, keys);
    forall o | o in os ensures OrderCustomer(o) in keys {
      FindFound(os, OrderCustomer, o.customerId);
    }
    forall p | p in ps ensures PaymentCustomer(p) in keys {
      FindFound(ps, PaymentCustomer, p.customerId);
    }
    PartitionSum(os, OrderCustomer, OrderTotal, keys);
    PartitionSum(ps, PaymentCustomer, PaymentAmount, keys);
  }

  /** With a customer selected, only that customer's statement can appear. */
  lemma SelectedCustomerOnly(orders: seq<Order>, payments: seq<Payment>, customer: string,
                             dateFrom: Option<int>, dateTo: Option<int>, collate: (string, string) -> int)
    requires Collation(collate)
    requires customer != ""
    ensures var f := StatementFilter(customer, dateFrom, dateTo);
      forall st :: st in StatementsOf(GetFilteredOrders(orders, f), GetFilteredPayments(payments, f), collate)
        ==> st.customerId == customer
  {
    var f := StatementFilter(customer, dateFrom, dateTo);
    var os, ps := GetFilteredOrders(orders, f), GetFilteredPayments(payments, f);
    StatementsCover(os, ps, collate);
  }

  /** The pending amount a statement shows is not floored: a customer who
      only paid in the period shows a negative pending amount. */
  lemma PendingMayBeNegative(p: Payment, collate: (string, string) -> int)
    requires Collation(collate)
    requires p.amount == 100
    ensures |StatementsOf([], [p], collate)| == 1
    ensures Pending(StatementsOf([], [p], collate)[0]) == -100
  {
    var c := p.customerId;
    assert [p][..0] == [];
    assert BucketOrder([], [p]) == [c];
    var r := StatementsOf([], [p], collate);
    var b := Buckets([], [p], [c]);
    assert r[0] in multiset(b);
    assert Paid([p], c) == 100;
  }
}
