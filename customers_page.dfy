/** The logic of src/pages/Customers.tsx: the customer search and the
    guarded dispatch of the edit form. */
module CustomersPage {
  import opened Ledger
  import opened Seqs
  import opened Text
  import opened Balance
  import opened Store

  /** The name or the address includes the term ignoring case, or the phone
      number includes it exactly. */
  predicate CustomerMatches(c: Customer, term: string, fold: char -> char) {
    var t := Lower(term, fold);
    || Contains(Lower(c.name, fold), t)
    || Contains(c.phone, term)
    || Contains(Lower(c.address, fold), t)
  }

  /** `filteredCustomers`, in stored order. */
  function FilteredCustomers(customers: seq<Customer>, term: string, fold: char -> char): (r: seq<Customer>)
    ensures forall c :: c in r <==> c in customers && CustomerMatches(c, term, fold)
  {
    Filter(customers, (c: Customer) => CustomerMatches(c, term, fold))
  }

  /** An empty search shows every customer, in stored order. */
  lemma EmptySearchKeepsAllCustomers(customers: seq<Customer>, fold: char -> char)
    ensures FilteredCustomers(customers, "", fold) == customers
  {
    forall c | c in customers ensures CustomerMatches(c, "", fold) {
      ContainsEmpty(c.phone);
    }
    FilterAll(customers, (c: Customer) => CustomerMatches(c, "", fold));
  }

  datatype CustomerForm = CustomerForm(name: string, phone: string, address: string)

  datatype CustomerAction =
    | NoCustomerAction
    | UpdateCustomerAction(id: string, patch: CustomerPatch)
    | AddCustomerAction(draft: CustomerDraft)

  /** `handleEditSubmit`: nothing when a field is empty; otherwise the three
      fields go to `updateCustomer` for the active customer, or to
      `addCustomer` when there is none. */
  function SubmitCustomer(form: CustomerForm, active: Option<Customer>): (a: CustomerAction)
    ensures a.NoCustomerAction? <==> form.name == "" || form.phone == "" || form.address == ""
    ensures a.UpdateCustomerAction? <==> !a.NoCustomerAction? && active.Some?
    ensures a.UpdateCustomerAction? ==> a.id == active.value.id && a.patch.id.None? && KeepsAggregates(a.patch)
    ensures a.AddCustomerAction? ==> a.draft == CustomerDraft(form.name, form.phone, form.address)
  {
    if form.name == "" || form.phone == "" || form.address == "" then NoCustomerAction
    else if active.Some? then
      UpdateCustomerAction(active.value.id,
        NoCustomerChange.(name := Some(form.name), phone := Some(form.phone), address := Some(form.address)))
    else AddCustomerAction(CustomerDraft(form.name, form.phone, form.address))
  }

  /** An edit rewrites the profile from the form and nothing else: the id,
      the creation time and the four aggregates stay. */
  lemma EditKeepsAggregates(form: CustomerForm, active: Customer, c: Customer)
    requires SubmitCustomer(form, Some(active)).UpdateCustomerAction?
    ensures PatchCustomer(c, SubmitCustomer(form, Some(active)).patch)
         == c.(name := form.name, phone := form.phone, address := form.address)
  {
  }

  /** Performs the form's action on the store: exactly one call, or none.
      An edit patches every customer with the id and no other, and keeps
      every customer's aggregates bounded and ids unique. */
  method PerformCustomerAction(store: DataStore, a: CustomerAction, id: string, createdAt: int)
    modifies store
    ensures a.NoCustomerAction? ==> store.customers == old(store.customers)
    ensures a.AddCustomerAction? ==> store.customers == old(store.customers) + [NewCustomer(a.draft, id, createdAt)]
    ensures a.AddCustomerAction? && old(store.AggregatesBounded()) ==> store.AggregatesBounded()
    ensures a.UpdateCustomerAction? ==>
      && |store.customers| == |old(store.customers)|
      && (forall j :: 0 <= j < |store.customers| ==>
            store.customers[j] == if old(store.customers[j]).id == a.id
                                  then PatchCustomer(old(store.customers[j]), a.patch)
                                  else old(store.customers[j]))
    ensures a.UpdateCustomerAction? && KeepsAggregates(a.patch) && a.patch.id.None? ==>
      (old(store.AggregatesBounded()) ==> store.AggregatesBounded())
      && (old(UniqueIds(store.customers)) ==> UniqueIds(store.customers))
    ensures store.products == old(store.products) && store.orders == old(store.orders) && store.payments == old(store.payments)
  {
    match a
    case NoCustomerAction =>
    case AddCustomerAction(draft) => store.AddCustomer(draft, id, createdAt);
    case UpdateCustomerAction(cid, patch) => store.UpdateCustomer(cid, patch);
  }
}
