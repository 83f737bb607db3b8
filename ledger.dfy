/** The records of the milk-delivery ledger (src/types/index.ts).
    Timestamps and dates are integers, money is an integer number of paise,
    and `Partial<T>` update objects are patches with one optional slot per field. */
module Ledger {

  datatype Option<T> = None | Some(value: T)

  /** `o ?? d`: the value if present, the default otherwise. */
  function Or<T>(o: Option<T>, d: T): T {
    match o
    case Some(v) => v
    case None => d
  }

  datatype Status = Pending | Delivered

  datatype Product = Product(id: string, name: string, price: int, createdAt: int)

  datatype Customer = Customer(
    id: string,
    name: string,
    phone: string,
    address: string,
    totalOrders: int,
    totalAmount: int,
    paidAmount: int,
    pendingBalance: int,
    createdAt: int)

  datatype OrderItem = OrderItem(productId: string, productName: string, quantity: int, price: int)

  datatype Order = Order(
    id: string,
    customerId: string,
    customerName: string,
    items: seq<OrderItem>,
    totalAmount: int,
    status: Status,
    orderDate: int,
    deliveryDate: Option<int>,
    createdAt: int)

  datatype Payment = Payment(
    id: string,
    customerId: string,
    customerName: string,
    amount: int,
    paymentDate: int,
    createdAt: int)

  datatype DashboardStats = DashboardStats(
    dailySelling: int,
    dailyCollection: int,
    totalCustomers: int,
    totalOrders: int,
    pendingOrders: int,
    deliveredOrders: int)

  /** The optional criteria of a filtered query. A string criterion that is
      the empty string is falsy in the source and imposes nothing. */
  datatype FilterOptions = FilterOptions(
    dateFrom: Option<int>,
    dateTo: Option<int>,
    customer: Option<string>,
    product: Option<string>,
    status: Option<Status>)

  /** The argument of `addProduct`: a product without id and timestamp. */
  datatype ProductDraft = ProductDraft(name: string, price: int)

  /** The argument of `addCustomer`: the three profile fields. */
  datatype CustomerDraft = CustomerDraft(name: string, phone: string, address: string)

  /** The argument of `addOrder`: an order without id and timestamp. */
  datatype OrderDraft = OrderDraft(
    customerId: string,
    customerName: string,
    items: seq<OrderItem>,
    totalAmount: int,
    status: Status,
    orderDate: int,
    deliveryDate: Option<int>)

  /** `Partial<Product>`: None leaves the field as it is. */
  datatype ProductPatch = ProductPatch(
    id: Option<string>,
    name: Option<string>,
    price: Option<int>,
    createdAt: Option<int>)

  /** `Partial<Customer>`. */
  datatype CustomerPatch = CustomerPatch(
    id: Option<string>,
    name: Option<string>,
    phone: Option<string>,
    address: Option<string>,
    totalOrders: Option<int>,
    totalAmount: Option<int>,
    paidAmount: Option<int>,
    pendingBalance: Option<int>,
    createdAt: Option<int>)

  /** `Partial<Order>`. `deliveryDate` is itself optional in an order, so its slot
      distinguishes "key absent" (None) from "key present, maybe undefined". */
  datatype OrderPatch = OrderPatch(
    id: Option<string>,
    customerId: Option<string>,
    customerName: Option<string>,
    items: Option<seq<OrderItem>>,
    totalAmount: Option<int>,
    status: Option<Status>,
    orderDate: Option<int>,
    deliveryDate: Option<Option<int>>,
    createdAt: Option<int>)

  const NoCustomerChange := CustomerPatch(None, None, None, None, None, None, None, None, None)
  const NoOrderChange := OrderPatch(None, None, None, None, None, None, None, None, None)

  /** `{ ...p, ...patch }` */
  function PatchProduct(p: Product, patch: ProductPatch): Product {
    Product(Or(patch.id, p.id), Or(patch.name, p.name), Or(patch.price, p.price), Or(patch.createdAt, p.createdAt))
  }

  /** `{ ...c, ...patch }` */
  function PatchCustomer(c: Customer, patch: CustomerPatch): Customer {
    Customer(
      Or(patch.id, c.id), Or(patch.name, c.name), Or(patch.phone, c.phone), Or(patch.address, c.address),
      Or(patch.totalOrders, c.totalOrders), Or(patch.totalAmount, c.totalAmount),
      Or(patch.paidAmount, c.paidAmount), Or(patch.pendingBalance, c.pendingBalance),
      Or(patch.createdAt, c.createdAt))
  }

  /** `{ ...o, ...patch }` */
  function PatchOrder(o: Order, patch: OrderPatch): Order {
    Order(
      Or(patch.id, o.id), Or(patch.customerId, o.customerId), Or(patch.customerName, o.customerName),
      Or(patch.items, o.items), Or(patch.totalAmount, o.totalAmount), Or(patch.status, o.status),
      Or(patch.orderDate, o.orderDate), Or(patch.deliveryDate, o.deliveryDate), Or(patch.createdAt, o.createdAt))
  }

  /** Whether a patch leaves the four maintained aggregates of a customer alone. */
  predicate KeepsAggregates(patch: CustomerPatch) {
    patch.totalOrders.None? && patch.totalAmount.None? && patch.paidAmount.None? && patch.pendingBalance.None?
  }

  // Field accessors passed to the generic sequence functions.
  function ProductId(p: Product): string { p.id }
  function CustomerId(c: Customer): string { c.id }
  function OrderId(o: Order): string { o.id }
  function OrderCustomer(o: Order): string { o.customerId }
  function PaymentCustomer(p: Payment): string { p.customerId }
  function ItemProduct(i: OrderItem): string { i.productId }
  function OrderTotal(o: Order): int { o.totalAmount }
  function PaymentAmount(p: Payment): int { p.amount }
  function ItemQuantity(i: OrderItem): int { i.quantity }
}
