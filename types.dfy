/** The records of `types.ts`: riders, orders, order status and partial orders. */
module Types {

  import opened Wrappers

  /** The four statuses the type declares; `Declined` is declared but never written. */
  datatype OrderStatus = Pending | Accepted | Declined | Delivered

  /** The status as the string the source stores and displays. */
  function StatusName(s: OrderStatus): string
  {
    match s
    case Pending => "pending"
    case Accepted => "accepted"
    case Declined => "declined"
    case Delivered => "delivered"
  }

  /** A rider; `createdAt` is a millisecond timestamp. */
  datatype Rider = Rider(id: string, name: string, phoneNumber: string, createdAt: int)

  /**
   * An order. The three amounts are JavaScript numbers that the core only
   * stores and shows, so they are kept as reals; timestamps are milliseconds.
   * The optional fields of the interface are `Option`s.
   */
  datatype Order = Order(
    id: string,
    shortId: string,
    customerName: string,
    customerNumber: string,
    coordinates: string,
    deliveryCharges: real,
    itemsValue: real,
    itemsQuantity: real,
    status: OrderStatus,
    createdAt: int,
    assignedRiderId: Option<string>,
    acceptedAt: Option<int>,
    completedAt: Option<int>)

  /** `Partial<Order>`: every field may be present (`Some`) or absent (`None`). */
  datatype OrderPatch = OrderPatch(
    id: Option<string>,
    shortId: Option<string>,
    customerName: Option<string>,
    customerNumber: Option<string>,
    coordinates: Option<string>,
    deliveryCharges: Option<real>,
    itemsValue: Option<real>,
    itemsQuantity: Option<real>,
    status: Option<OrderStatus>,
    createdAt: Option<int>,
    assignedRiderId: Option<string>,
    acceptedAt: Option<int>,
    completedAt: Option<int>)

  /** The patch with no field present, `{}`. */
  const EmptyPatch := OrderPatch(None, None, None, None, None, None, None, None, None, None, None, None, None)
}
