/**
 * The records the application keeps (types.ts). Monetary amounts are `real`
 * (JavaScript numbers, never computed with here); timestamps are milliseconds
 * since the epoch as `int`; the optional `?` fields are `Option`s.
 */
module Types {
  import opened Wrappers

  /** A priced variant of a product (size, flavour, ...). */
  datatype ProductSpec = ProductSpec(id: string, name: string, price: real)

  /** A catalog entry; `price` is the base price when no spec is chosen. */
  datatype Product = Product(
    id: string,
    name: string,
    price: real,
    specs: seq<ProductSpec>,
    image: Option<string>,
    description: Option<string>)

  /** An address-book entry, matched to orders by WeChat nickname. */
  datatype Customer = Customer(
    id: string,
    wechatNickname: string,
    realName: string,
    phone: string,
    address: string)

  /** One line of an order, with the unit price frozen when the order was made. */
  datatype OrderItem = OrderItem(
    id: string,
    productName: string,
    specName: Option<string>,
    quantity: int,
    priceAtTime: real)

  /** The three order states, 'PENDING_PAYMENT' | 'PAID' | 'SHIPPED'. */
  datatype OrderStatus = PendingPayment | Paid | Shipped

  /** An order; `matchedCustomer` is a copy of the customer record, not a reference. */
  datatype Order = Order(
    id: string,
    wechatNickname: string,
    items: seq<OrderItem>,
    totalAmount: real,
    status: OrderStatus,
    timestamp: int,
    matchedCustomer: Option<Customer>,
    note: Option<string>)

  /** The four kinds of log entry, 'INFO' | 'SUCCESS' | 'WARNING' | 'ERROR'. */
  datatype LogType = Info | Success | Warning | Error

  /** An entry of the operator's action log (the record's `type` field is `kind` here). */
  datatype ActionLog = ActionLog(id: string, timestamp: int, kind: LogType, message: string)

  /** The exchange document written by a backup. */
  datatype AppBackup = AppBackup(
    products: seq<Product>,
    customers: seq<Customer>,
    orders: seq<Order>,
    version: string,
    timestamp: int)
}
