/** The checks of src/components/Customers/PaymentModal.tsx before a
    payment reaches the store. The amount field is given as its parsed
    value (None when it does not parse) and the date field as None when empty. */
module PaymentForm {
  import opened Ledger
  import opened Seqs
  import opened Balance
  import opened Store

  datatype PaymentError = InvalidAmount | MissingDate

  datatype PaymentOutcome =
    | Rejected(error: PaymentError)
    | Submitted(customerId: string, amount: int, paymentDate: int)

  /** `handleSubmit`: the amount is checked first, then the date; valid
      input goes to `makePayment` for the customer shown. */
  function SubmitPayment(customer: Customer, amount: Option<int>, paymentDate: Option<int>): (r: PaymentOutcome)
    ensures r == Rejected(InvalidAmount) <==> amount.None? || amount.value <= 0
    ensures r == Rejected(MissingDate) <==> amount.Some? && amount.value > 0 && paymentDate.None?
    ensures r.Submitted? <==> amount.Some? && amount.value > 0 && paymentDate.Some?
    ensures r.Submitted? ==> r.customerId == customer.id && r.amount == amount.value && r.paymentDate == paymentDate.value
  {
    if amount.None? || amount.value <= 0 then Rejected(InvalidAmount)
    else if paymentDate.None? then Rejected(MissingDate)
    else Submitted(customer.id, amount.value, paymentDate.value)
  }

  /** Whatever reaches the store is positive, so the customer's aggregates
      stay bounded, the paid amount grows and the balance does not. */
  lemma SubmittedPaymentKeepsBounds(customer: Customer, amount: Option<int>, paymentDate: Option<int>)
    requires Bounded(customer)
    requires SubmitPayment(customer, amount, paymentDate).Submitted?
    ensures var r := SubmitPayment(customer, amount, paymentDate);
      && Bounded(Step(customer, PaymentMade(r.amount)))
      && Step(customer, PaymentMade(r.amount)).paidAmount > customer.paidAmount
      && Step(customer, PaymentMade(r.amount)).pendingBalance <= customer.pendingBalance
  {
    PaymentKeepsBounds(customer, amount.value);
  }

  /** Performs the outcome on the store: one `makePayment`, or nothing. A
      submission for an unknown customer changes nothing; otherwise one
      payment is appended under the customer's current name and every
      customer with the id gets the paid amount raised and the pending
      balance lowered, floored at zero. */
  method PerformPayment(store: DataStore, r: PaymentOutcome, id: string, createdAt: int)
    modifies store
    ensures r.Rejected? ==> store.customers == old(store.customers) && store.payments == old(store.payments)
    ensures r.Submitted? ==> var found := Find(old(store.customers), CustomerId, r.customerId);
      && (found.None? ==> store.customers == old(store.customers) && store.payments == old(store.payments))
      && (found.Some? ==>
            && store.payments == old(store.payments) + [Payment(id, r.customerId, found.value.name, r.amount, r.paymentDate, createdAt)]
            && |store.customers| == |old(store.customers)|
            && (forall j :: 0 <= j < |store.customers| ==>
                  store.customers[j] == if old(store.customers[j]).id == r.customerId
                                        then PatchCustomer(old(store.customers[j]), PaymentAggregates(found.value, r.amount))
                                        else old(store.customers[j])))
    ensures old(UniqueIds(store.customers)) ==> UniqueIds(store.customers)
    ensures r.Submitted? && old(UniqueIds(store.customers)) && old(store.AggregatesBounded()) && r.amount > 0
      ==> store.AggregatesBounded()
    ensures store.products == old(store.products) && store.orders == old(store.orders)
  {
    match r
    case Rejected(_) =>
    case Submitted(customerId, amount, paymentDate) => store.MakePayment(customerId, amount, paymentDate, id, createdAt);
  }
}
