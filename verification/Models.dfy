/** The data every part of the restaurant shares: orders, table snapshots and limits.

    Identifiers drawn with `uuid4` are modelled by the serial number of the draw: the code
    only ever compares them for equality, and no two draws agree. Instants are integer
    milliseconds. */
module Models {
  type TableId = int
  type OrderId = nat
  type Epoch = nat
  type Millis = int

  datatype Option<+T> = None | Some(value: T)

  datatype OrderStatus = Cooking | Served | Failed

  datatype Order = Order(
    orderId: OrderId,
    foodName: string,
    status: OrderStatus,
    placedAt: Millis,
    cookSeconds: nat,
    expectedReadyAt: Millis,
    readyAt: Option<Millis>)

  /** The authoritative state of one table, published in full on every change. */
  datatype TableState = TableState(
    tableId: TableId,
    epoch: Epoch,
    version: nat,
    updatedAt: Millis,
    orders: seq<Order>)

  datatype RejectionReason = ValidationFailed | UnknownTable | TableAtCapacity | KitchenAtCapacity

  /** An order command that passed validation. */
  datatype OrderPlaced = OrderPlaced(clientOrderId: string, clientId: string, tableId: TableId, foodName: string)

  datatype Settings = Settings(
    tables: set<TableId>,
    maxOrdersPerTable: nat,
    maxOrdersGlobal: nat,
    dedupeCacheSize: nat,
    maxServedHistory: nat,
    enableReset: bool)
}
