# Milk-delivery ledger: a Dafny model

This project models the bookkeeping core of a milk-delivery ledger app. The
app keeps four collections in memory: products, customers, orders and
payments. Each customer record carries four incremental aggregates: order
count, amount billed, amount paid and pending balance. The model covers:

- the record store and its mutators, including the balance maintainer that
  updates a customer's aggregates when an order is placed or a payment is made
  (`Store`, `Balance`);
- the read-side queries: the day's dashboard statistics, the filtered and
  date-sorted order and payment lists, and the per-product daily quantities
  (`Queries`);
- the account statements: per-customer buckets, sorted by date and then by
  customer name, with grand totals (`Statements`);
- a customer's lifetime history with a running balance (`CustomerHistory`);
- the form-side logic that feeds the store: the order search, grouping, item
  snapshot, total, dispatch and status toggle (`OrdersPage`), the customer
  search and edit dispatch (`CustomersPage`), the payment checks
  (`PaymentForm`), and the dashboard's overall sums (`Dashboard`).

## Representation

- Timestamps and calendar dates are integers.
- A calendar day is a given inclusive window `[dayStart, dayEnd]`.
- The dashboard's date input is an `Option` of such a window, `None` when the
  input is cleared; the current day is a parameter `today`. An unparsable
  date is the window no timestamp falls in (`Dashboard.InvalidDay`).
- Money is an integer number of paise.
- `Partial<T>` update objects are patch datatypes with one `Option` slot per
  field.
- Generated ids and clock readings are parameters.
- `String.prototype.includes` is defined outright (`Text.Contains`).
  `toLowerCase` is a character-by-character case fold given as a parameter.
  `localeCompare` is a parameter assumed to be a total preorder
  (`Statements.Collation`).
- The engine's `Array.prototype.sort` with a comparator is stable. It is
  modelled by an insertion sort (`Sorting.StableSort`) under the relation
  `cmp(a, b) <= 0`.
- Dictionaries keyed by id keep insertion order. They are modelled as a `map`
  plus the sequence of keys in the order they were first met.

The store is a class with four sequence fields. Each mutator reassigns them.
Loops that fill a dictionary (the daily product sales, the statement buckets,
the order grouping) and the running-balance accumulator are methods with loop
invariants. Each is proved equal to a specification function, and the
properties are proved about those functions.

## Notes on the code as written

- **Balance can go out of step with its defining formula.** The balance is
  floored at zero when a payment is made but not when an order is placed. So
  the relation `pendingBalance == max(0, totalAmount - paidAmount)` does not
  survive an overpayment followed by an order: the credit is forgotten.
  `Balance.OverpaymentThenOrder` exhibits this. What does hold under every
  history of non-negative order totals and positive payments is proved in
  `Balance.ReplayKeepsBounds`: `0 <= pendingBalance <= totalAmount` and
  `totalAmount - paidAmount <= pendingBalance`.
- **The bounds rely on unique customer ids.** `addOrder` and `makePayment` read
  the first customer with the id, then write the new aggregates to every
  customer with that id. The bounds are therefore proved for stores whose
  customer ids are unique (`Store.UniqueIds`). Every mutator keeps that
  property when given fresh ids.
- **Non-negative order totals are a hypothesis, not a guarantee.** The
  product form stores any parsed price, negative ones included
  (src/pages/Products.tsx:20-31). An order of such a product has a negative
  total, and `addOrder` then lowers the balance below zero. The bounds above
  are proved for non-negative totals only.
- **A cleared dashboard date splits the page.** `getDashboardStats` falls
  back to today when the date is empty, but `getDailyProductSales` parses the
  empty string. So the statistics are today's while the product list matches
  no order. `Dashboard.ClearedDateSplitsDay` shows that the list is then empty
  on a day whose own list is not.

## Model

| member | source | states |
|---|---|---|
| Balance.OrderKeepsBounds | src/contexts/DataContext.tsx:84-88 | an order of non-negative total keeps `0 <= pending <= billed` and `billed - paid <= pending` |
| Balance.PaymentKeepsBounds | src/contexts/DataContext.tsx:103-108 | a positive payment keeps the bounds, raises the paid amount and never raises the balance |
| Balance.ReplayKeepsBounds | src/contexts/DataContext.tsx:74-120 | from bounded aggregates, every history of non-negative orders and positive payments keeps them bounded |
| Balance.ReplayCounts | src/contexts/DataContext.tsx:84-88 | after any history the order count, billed and paid amounts have grown by exactly the orders, totals and amounts in it; the profile is untouched |
| Balance.ReplayMonotone | src/contexts/DataContext.tsx:85-86 | order count, billed and paid amounts never decrease |
| Balance.OverpaymentThenOrder | src/contexts/DataContext.tsx:87 | from zero, paying 100 then ordering 50 leaves balance 50 where `max(0, billed - paid)` is 0 |
| Store.NewCustomer | src/contexts/DataContext.tsx:53-61 | a new customer has the form's profile, zero aggregates, and is bounded |
| Store.WithoutKeyKeepsUniqueIds | src/contexts/DataContext.tsx:69-70 | deleting by id keeps customer ids unique |
| Store.DataStore.constructor | src/contexts/DataContext.tsx:30-33 | the store starts with four empty collections, trivially bounded |
| Store.DataStore.AddProduct | src/contexts/DataContext.tsx:35-42 | appends one product with the given id and time; nothing else changes |
| Store.DataStore.UpdateProduct | src/contexts/DataContext.tsx:44-46 | every product with the id is patched, every other one kept, the other collections untouched |
| Store.DataStore.DeleteProduct | src/contexts/DataContext.tsx:48-50 | exactly the products without the id remain |
| Store.DataStore.AddCustomer | src/contexts/DataContext.tsx:52-63 | appends one customer with zero aggregates; keeps bounds and, for a fresh id, unique ids |
| Store.DataStore.UpdateCustomer | src/contexts/DataContext.tsx:65-67 | patches every customer with the id; a patch without aggregates keeps bounds, one without id keeps ids unique |
| Store.DataStore.DeleteCustomer | src/contexts/DataContext.tsx:69-72 | removes the customer and all their orders; payments and products stay |
| Store.DataStore.AddOrder | src/contexts/DataContext.tsx:74-90 | always appends the order; the first customer with the id gains one order and the total on billed and balance, written to every customer with that id; bounds kept for non-negative totals |
| Store.DataStore.UpdateOrder | src/contexts/DataContext.tsx:92-94 | patches only orders with the id; customers' aggregates untouched |
| Store.DataStore.DeleteOrder | src/contexts/DataContext.tsx:96-98 | removes only orders with the id; aggregates are not rolled back |
| Store.DataStore.MakePayment | src/contexts/DataContext.tsx:100-120 | unknown customer: no change; otherwise paid grows by the amount, balance becomes `max(0, balance - amount)`, one payment under the customer's current name is appended; bounds kept for positive amounts |
| Queries.OrdersOn | src/contexts/DataContext.tsx:127-129 | exactly the orders dated inside the day, both ends included, each as many times as stored |
| Queries.PaymentsOn | src/contexts/DataContext.tsx:131-133 | exactly the payments dated inside the day, each as many times as stored |
| Queries.StatusSplit | src/contexts/DataContext.tsx:143-144 | pending plus delivered counts equal the number of orders |
| Queries.GetDashboardStats | src/contexts/DataContext.tsx:122-146 | totals are the collection sizes; pending plus delivered equals the order count |
| Queries.DailySellingGrows | src/contexts/DataContext.tsx:127-135 | one more order adds its total to the day's selling iff it is dated in the day; collection unchanged |
| Queries.DailyCollectionGrows | src/contexts/DataContext.tsx:131-136 | one more payment adds its amount to the day's collection iff dated in the day; selling unchanged |
| Queries.OrderMatches | src/contexts/DataContext.tsx:149-157 | the early-rejection chain accepts iff every supplied criterion holds (date bounds inclusive, customer, status, some item of the product) |
| Queries.PaymentMatches | src/contexts/DataContext.tsx:163-167 | accepts iff date bounds and customer criteria hold |
| Queries.GetFilteredOrders | src/contexts/DataContext.tsx:148-160 | each matching order as many times as stored, no other, newest first |
| Queries.GetFilteredPayments | src/contexts/DataContext.tsx:162-169 | each matching payment as many times as stored, no other, newest first |
| Queries.UnfilteredOrders | src/contexts/DataContext.tsx:148-160 | without criteria the result is a permutation of all orders |
| Queries.EmptyCriterionIsAbsent | src/contexts/DataContext.tsx:152-154 | an empty customer or product id filters like an absent one |
| Queries.FilteredOrdersStable | src/contexts/DataContext.tsx:159 | orders of equal date keep their stored relative order |
| Queries.QuantityOfIsSum | src/contexts/DataContext.tsx:184-186 | the accumulated quantity of a product is the sum over its items |
| Queries.ProductKeyOrder | src/contexts/DataContext.tsx:182-192 | each product of the day's items is listed once, in order of first appearance |
| Queries.DailySalesEntries | src/contexts/DataContext.tsx:171-199 | each entry has its product's first item's name and the sum of its item quantities |
| Queries.DailySalesTotal | src/contexts/DataContext.tsx:171-199 | the reported quantities add up to the quantity of all the day's items |
| Queries.TallySeen | src/contexts/DataContext.tsx:184-185 | an item of a tallied product adds its quantity to that entry only and leaves the key order as it was |
| Queries.TallyNew | src/contexts/DataContext.tsx:186-191 | an item of a new product opens an entry with its name and quantity, appends its product id to the key order and changes no other entry |
| Queries.TallyItem | src/contexts/DataContext.tsx:184-191 | one pass of the inner loop turns the dictionary and key order of the items seen into those of one more item |
| Queries.TallyItems | src/contexts/DataContext.tsx:183-192 | the inner loop leaves the dictionary and key order of the items seen so far |
| Queries.ListSales | src/contexts/DataContext.tsx:196-199 | lists the dictionary's entries in key order |
| Queries.GetDailyProductSales | src/contexts/DataContext.tsx:171-199 | the nested loops compute exactly the day's product sales |
| Sorting.StableSort | src/contexts/DataContext.tsx:159 | the sort result is a permutation of its input and ordered by the comparator |
| Sorting.StableSortKeepsPeers | src/contexts/DataContext.tsx:159 | elements the comparator cannot tell apart keep their relative order |
| Sorting.StableSortKeepsBlockOrder | src/pages/Statements.tsx:85 | after sorting `a + b`, an element of `b` precedes one of `a` only if strictly smaller |
| Statements.StatementsOf | src/pages/Statements.tsx:88-90 | the statements are ordered by customer name under the collation |
| Statements.BookOrder | src/pages/Statements.tsx:45-61 | one more order: a customer not yet in the dictionary is appended to the key order and opens a statement under the order's customer name; the order's row is pushed and its total added to billed; every other entry is unchanged |
| Statements.PostOrder | src/pages/Statements.tsx:45-61 | one pass of the order loop turns the dictionary and key order of the orders seen into those of one more order |
| Statements.BookPayment | src/pages/Statements.tsx:65-81 | one more payment: a customer not yet in the dictionary is appended to the key order and opens a statement under the payment's customer name; the payment's row is pushed and its amount added to paid; every other entry is unchanged |
| Statements.PostPayment | src/pages/Statements.tsx:65-81 | one pass of the payment loop turns the dictionary and key order of the records seen into those of one more payment |
| Statements.BucketOrderHas | src/pages/Statements.tsx:44-82 | the dictionary's keys are distinct and are exactly the customers met |
| Statements.BookOrders | src/pages/Statements.tsx:44-62 | the order loop leaves one bucket per customer met, holding their rows and billed total |
| Statements.BookPayments | src/pages/Statements.tsx:64-82 | the payment loop extends it with the payments' rows and paid totals |
| Statements.SortEach | src/pages/Statements.tsx:84-86 | every bucket's rows end up sorted by date |
| Statements.ListStatements | src/pages/Statements.tsx:88-89 | the buckets are listed in key order |
| Statements.CustomerStatements | src/pages/Statements.tsx:28-92 | the loops compute exactly the specified statements of the filtered orders and payments |
| Statements.OrderRows | src/pages/Statements.tsx:52-59 | each order of the customer gives exactly one order row, billed = total, paid = 0, in order |
| Statements.OrderTotals | src/pages/Statements.tsx:61 | the billed total is the sum of the customer's order totals and of the rows' billed column |
| Statements.OrderKinds | src/pages/Statements.tsx:54 | order rows are of kind order |
| Statements.PaymentRows | src/pages/Statements.tsx:72-79 | each payment of the customer gives exactly one payment row, billed = 0, paid = amount |
| Statements.PaymentTotals | src/pages/Statements.tsx:81 | the paid total is the sum of the customer's payment amounts and of the rows' paid column |
| Statements.PaymentKinds | src/pages/Statements.tsx:74 | payment rows are of kind payment |
| Statements.StatementIsBucket | src/pages/Statements.tsx:28-92 | every listed statement is its customer's sorted bucket |
| Statements.StatementsDistinct | src/pages/Statements.tsx:88-90 | no customer appears twice |
| Statements.StatementsCover | src/pages/Statements.tsx:44-90 | a statement exists exactly for the customers with a filtered order or payment |
| Statements.BucketRows | src/pages/Statements.tsx:84-86 | sorting keeps a bucket's rows, ascending by date, orders before payments of the same date |
| Statements.BucketTotals | src/pages/Statements.tsx:61-85 | after sorting, billed and paid totals still equal the sums of the rows |
| Statements.StatementRows | src/pages/Statements.tsx:44-86 | a listed statement's rows, order and totals as above |
| Statements.StatementName | src/pages/Statements.tsx:45-51 | the name is the first filtered order's, or the first filtered payment's when there is no order |
| Statements.GrandTotals | src/pages/Statements.tsx:94-95 | grand billed and paid equal the sums over all filtered orders and payments |
| Statements.SelectedCustomerOnly | src/pages/Statements.tsx:29-35 | with a customer selected, only that customer's statement appears |
| Statements.PendingMayBeNegative | src/pages/Statements.tsx:316 | the pending figure is not floored: a payment-only period shows -100 |
| CustomerHistory.Chronological | src/components/Customers/CustomerDetailsModal.tsx:18-46 | the entries are exactly the customer's orders and payments, one each, ascending by date |
| CustomerHistory.OrdersBeforePaymentsOnADay | src/components/Customers/CustomerDetailsModal.tsx:21-46 | on equal dates the customer's orders precede their payments |
| CustomerHistory.NetChange | src/components/Customers/CustomerDetailsModal.tsx:29-44 | the changes add up to billed minus paid for the customer |
| CustomerHistory.Accumulate | src/components/Customers/CustomerDetailsModal.tsx:48-52 | each row's balance is the sum of the changes up to and including it |
| CustomerHistory.ProcessedTransactions | src/components/Customers/CustomerDetailsModal.tsx:17-53 | the rows are the chronological entries with their prefix-sum balances |
| CustomerHistory.BalanceSteps | src/components/Customers/CustomerDetailsModal.tsx:48-52 | first balance is the first change, each next one adds its change, the last is the total change |
| CustomerHistory.FinalBalance | src/components/Customers/CustomerDetailsModal.tsx:29-52 | the last balance is the customer's billed minus paid, whatever the sort did |
| OrdersPage.FilteredOrders | src/pages/Orders.tsx:118-123 | keeps an order iff its customer or an item's product name mentions the term, ignoring case, and its status is admitted |
| OrdersPage.EmptySearchKeepsAllOrders | src/pages/Orders.tsx:118-123 | an empty term with every status keeps all orders in order |
| OrdersPage.GroupStep | src/pages/Orders.tsx:127 | one push keeps every group equal to its customer's orders so far |
| OrdersPage.GroupOrders | src/pages/Orders.tsx:125-130 | each customer met maps to their filtered orders in order; keys in first-appearance order |
| OrdersPage.GroupsPartition | src/pages/Orders.tsx:125-130 | no group is empty and the group sizes add up to the number of filtered orders |
| OrdersPage.SnapshotLines | src/pages/Orders.tsx:139-147 | each line keeps id and quantity, takes name and price of the first product with the id, or `''` and 0 |
| OrdersPage.TotalNotNegative | src/pages/Orders.tsx:149 | non-negative prices and quantities give a non-negative total |
| OrdersPage.SubmitOrder | src/pages/Orders.tsx:132-168 | nothing when no customer is chosen, no items, or the customer is unknown; otherwise an update of the edited order or an add |
| OrdersPage.SubmittedOrder | src/pages/Orders.tsx:139-165 | the submitted order carries the customer's name, the snapshot lines and their total, a delivery date iff delivered; an edit keeps only id and creation time |
| OrdersPage.PerformOrderAction | src/pages/Orders.tsx:161-165 | one store call or none: an add appends the order and raises the first found customer's aggregates on every customer with its id; an edit patches exactly the orders with the id and leaves the customers as they were |
| OrdersPage.ToggleTwice | src/pages/Orders.tsx:218-224 | a toggle flips the status and dates delivery iff delivered; two toggles restore all but the delivery date |
| CustomersPage.FilteredCustomers | src/pages/Customers.tsx:21-25 | keeps a customer iff name or address mentions the term ignoring case, or the phone contains it exactly |
| CustomersPage.EmptySearchKeepsAllCustomers | src/pages/Customers.tsx:21-25 | an empty term keeps every customer |
| CustomersPage.SubmitCustomer | src/pages/Customers.tsx:27-48 | nothing when a field is empty; an edit of the active customer's profile only, or one add with the three fields |
| CustomersPage.EditKeepsAggregates | src/pages/Customers.tsx:31-36 | an edit leaves id, creation time and the four aggregates as they were |
| CustomersPage.PerformCustomerAction | src/pages/Customers.tsx:29-43 | one store call or none: an add appends the new customer; an edit patches exactly the customers with the active id, keeps the length, and keeps bounds and unique ids |
| PaymentForm.SubmitPayment | src/components/Customers/PaymentModal.tsx:19-34 | an unparsable or non-positive amount is rejected first, then a missing date; otherwise one payment for the shown customer |
| PaymentForm.SubmittedPaymentKeepsBounds | src/components/Customers/PaymentModal.tsx:23-32 | what reaches the store keeps the customer's aggregates bounded |
| PaymentForm.PerformPayment | src/components/Customers/PaymentModal.tsx:32 | a rejection changes nothing; a submission for an unknown customer changes nothing; otherwise one payment is appended under the customer's current name and every customer with the id gets paid raised and pending lowered, floored at zero; bounds and unique ids are kept |
| Dashboard.PendingWithinSales | src/pages/Dashboard.tsx:23-25 | with bounded customers, `0 <= totalPending <= totalSales` and `totalSales - totalPaid <= totalPending` |
| Dashboard.DashboardView | src/pages/Dashboard.tsx:18-21 | with a date selected, the statistics and the product sales are those of that day; with the date cleared, the statistics are today's and the product list is empty |
| Dashboard.NoSalesOnInvalidDay | src/contexts/DataContext.tsx:171-178 | an unparsable date matches no order, so no product is listed |
| Dashboard.ClearedDateSplitsDay | src/contexts/DataContext.tsx:122-125 | on a day with an item sold, today's product list is non-empty while the cleared date's is empty |

## Left out

- Persistence in local storage: the collections are in-memory sequences and each mutator is one atomic step.
- React state, closure staleness, rendering, animation and modal state.
- Id generation and the clock: ids and timestamps are parameters of the mutators and forms.
- Calendar arithmetic (parsing dates, start and end of a day, week or month, the period selector on the statements page): dates are integers and the day window is given.
- Floating-point money, `toFixed` and the parsing of number fields: amounts are integers, and a parsed field is a given `Option`.
- The human-readable description strings of statement and history rows: an order row keeps its items, a payment row nothing.
- PDF and CSV export of statements.
- Authentication and the products page, which only forwards form values to the product mutators modelled here.
- Object keys that the engine orders or resolves specially: integer-like ids are listed before others by `Object.values`, and ids such as `constructor` hit the prototype. Dictionary order is modelled as insertion order.
- `toLowerCase` mappings that change a string's length: the case fold maps one character to one character.
- In-place sorts (`combined.sort`, `statement.transactions.sort`): modelled as replacing the sequence with its sorted value, so aliasing is not captured.
- The product sales for a cleared date follow date-fns versions in which a comparison with an Invalid Date is false and no order matches; older versions throw a `RangeError` for the invalid interval instead, which is not modelled.
