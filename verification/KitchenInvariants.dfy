/** What holds of the kitchen after every action, in every interleaving. */
module KitchenInvariants {
  import opened Models
  import opened OrderLists
  import opened StoreModel
  import opened KitchenModel

  // --- the invariants -------------------------------------------------------------------

  ghost predicate Increasing(orders: seq<Order>, bound: OrderId) {
    && (forall i, j :: 0 <= i < j < |orders| ==> orders[i].orderId < orders[j].orderId)
    && (forall i :: 0 <= i < |orders| ==> orders[i].orderId < bound)
  }

  ghost predicate Shaped(settings: Settings, k: Kitchen) {
    && k.store.tables.Keys == settings.tables
    && k.ledger.Keys == settings.tables
    && k.store.dedupeCacheSize == settings.dedupeCacheSize
    && k.store.maxServedHistory == settings.maxServedHistory
    && (forall t :: t in k.ledger ==> Increasing(k.ledger[t], k.nextOrder))
  }

  /** The store is the untrimmed ledger, trimmed; a version counts accepts plus finishes. */
  ghost predicate Faithful(k: Kitchen) {
    forall t :: t in k.store.tables && t in k.ledger ==>
      && k.store.tables[t].orders == Trim(k.ledger[t], k.store.maxServedHistory)
      && k.store.tables[t].version == |k.ledger[t]| + |FinishedOrders(k.ledger[t])|
  }

  /** The dedupe cache is the last N accepted keys, and those keys never recur too soon. */
  ghost predicate Windowed(k: Kitchen) {
    && k.store.seen == LastN(k.keys, k.store.dedupeCacheSize)
    && Spaced(k.keys, k.store.dedupeCacheSize)
  }

  ghost predicate Capped(settings: Settings, k: Kitchen) {
    && (forall t :: t in k.store.tables ==> CookingCount(k.store, t) <= settings.maxOrdersPerTable)
    && TotalCooking(k.store) <= settings.maxOrdersGlobal
  }

  /** An order's times agree with its status. Nothing is ever marked failed. */
  ghost predicate Timely(o: Order, now: Millis) {
    && o.placedAt <= now
    && o.expectedReadyAt == o.placedAt + 1000 * o.cookSeconds
    && match o.status
       case Cooking => o.readyAt == None
       case Served => o.readyAt.Some? && o.expectedReadyAt <= o.readyAt.value <= now
       case Failed => false
  }

  ghost predicate Punctual(k: Kitchen) {
    forall t, i :: t in k.ledger && 0 <= i < |k.ledger[t]| ==> Timely(k.ledger[t][i], k.now)
  }

  /** The ledger's entry for a task's dish. */
  function Dish(k: Kitchen, c: CookTask): Option<Order> {
    if c.tableId in k.ledger then Lookup(k.ledger[c.tableId], c.orderId) else None
  }

  /** A task that has not served yet cooks an order that is still cooking; a task that is
      publishing has served it. */
  ghost predicate TaskMatches(k: Kitchen, c: CookTask) {
    && (Unserved(c) ==>
          && Dish(k, c).Some? && Dish(k, c).value.status == Cooking
          && Dish(k, c).value.cookSeconds == c.cookSeconds
          && c.orderId !in k.orphans
          && (k.main.Accepting? ==> c.orderId != k.main.order.orderId)
          && (c.phase.Sleeping? ==> Dish(k, c).value.expectedReadyAt <= c.phase.due))
    && (c.phase.Publishing? ==> Dish(k, c).Some? && Dish(k, c).value.status != Cooking)
  }

  ghost predicate OneTaskPerDish(k: Kitchen) {
    forall i, j :: i in k.tasks && j in k.tasks && i != j && Unserved(k.tasks[i]) && Unserved(k.tasks[j])
      ==> k.tasks[i].orderId != k.tasks[j].orderId
  }

  /** Some task is still going to serve this order. */
  ghost predicate HasCook(k: Kitchen, t: TableId, id: OrderId) {
    exists i :: i in k.tasks && Unserved(k.tasks[i]) && k.tasks[i].tableId == t && k.tasks[i].orderId == id
  }

  /** Every order still cooking has a cook, or a reason known to the kitchen why not yet or
      no longer. */
  ghost predicate Attended(k: Kitchen, t: TableId, o: Order) {
    || o.status != Cooking
    || HasCook(k, t, o.orderId)
    || o.orderId in k.orphans
    || (k.main.Accepting? && k.main.tableId == t && k.main.order.orderId == o.orderId)
    || k.main.Cancelling?
    || k.main.Stopping?
  }

  function UnservedTasks(k: Kitchen): set<nat> {
    set i | i in k.tasks && Unserved(k.tasks[i])
  }

  ghost predicate Numbered(k: Kitchen) {
    && (forall i :: i in k.tasks ==> i < k.nextTask && k.tasks[i].orderId < k.nextOrder)
    && (forall id :: id in k.orphans ==> id < k.nextOrder)
  }

  ghost predicate TasksMatch(k: Kitchen) {
    forall i :: i in k.tasks ==> TaskMatches(k, k.tasks[i])
  }

  ghost predicate AllAttended(k: Kitchen) {
    forall t, i :: t in k.ledger && 0 <= i < |k.ledger[t]| ==> Attended(k, t, k.ledger[t][i])
  }

  /** What the consumer's position says about the order in hand and about the cooks. */
  ghost predicate MainSound(k: Kitchen) {
    match k.main
    case Accepting(t, order) =>
      && t in k.ledger
      && Lookup(k.ledger[t], order.orderId) == Some(order)
      && order.status == Cooking
      && order.orderId !in k.orphans
      && order.orderId < k.nextOrder
    case Cancelling => forall i :: i in k.tasks ==> k.tasks[i].phase.Cancelled?
    case Stopping => forall i :: i in k.tasks ==> k.tasks[i].phase.Cancelled?
    case Resetting(_, _) => k.tasks == map[]
    case _ => true
  }

  /** The records: a function of the store, the history and the clock. */
  ghost predicate BooksInv(settings: Settings, k: Kitchen) {
    && Shaped(settings, k)
    && Faithful(k)
    && Windowed(k)
    && Capped(settings, k)
    && Punctual(k)
  }

  /** The cooks: who is cooking what. */
  ghost predicate StaffInv(k: Kitchen) {
    && Numbered(k)
    && TasksMatch(k)
    && OneTaskPerDish(k)
    && AllAttended(k)
    && MainSound(k)
  }

  ghost predicate Inv(settings: Settings, k: Kitchen) {
    BooksInv(settings, k) && StaffInv(k)
  }
}
