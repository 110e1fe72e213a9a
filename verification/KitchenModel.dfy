/** The kitchen as a transition system.

    Code between two awaits runs undisturbed, so each action below is one such stretch, but for
    one: an announce, or a reset, lists its snapshots and hands over the first of them in a
    single stretch, which is two actions here with nothing enabled in between (`AtAwait`). The
    consumer and the session are a single thread of control (`main`); each dish is a task of
    its own. Handing a snapshot to the publisher belongs to the stretch that took it, or that
    took it from the list. */
module KitchenModel {
  import opened Models
  import opened OrderLists
  import opened StoreModel

  datatype Verdict =
    | Rejected(reason: RejectionReason)
    | Duplicate
    | Accepted(order: Order, store: Store)

  function NewOrder(cmd: OrderPlaced, id: OrderId, delay: int, now: Millis): Order {
    var cookSeconds: nat := if delay > 0 then delay else 0;
    Order(id, cmd.foodName, Cooking, now, cookSeconds, now + 1000 * cookSeconds, None)
  }

  /** All the checks an order must pass and, if it passes, its recording: one undisturbed stretch. */
  function TryAccept(settings: Settings, s: Store, cmd: OrderPlaced, topicTable: TableId,
                     id: OrderId, delay: int, now: Millis): Verdict
  {
    if cmd.tableId != topicTable then Rejected(ValidationFailed)
    else if cmd.tableId !in s.tables then Rejected(UnknownTable)
    else if cmd.clientOrderId in s.seen then Duplicate
    else if TotalCooking(s) >= settings.maxOrdersGlobal then Rejected(KitchenAtCapacity)
    else if CookingCount(s, cmd.tableId) >= settings.maxOrdersPerTable then Rejected(TableAtCapacity)
    else
      var order := NewOrder(cmd, id, delay, now);
      Accepted(order, AddOrder(Remember(s, cmd.clientOrderId), cmd.tableId, order))
  }

  /** An order passes every check there is: it is for the table it came for, which exists, its key
      is not remembered, and neither the restaurant nor the table is full. */
  predicate Admits(settings: Settings, s: Store, cmd: OrderPlaced, topicTable: TableId) {
    && cmd.tableId == topicTable
    && topicTable in s.tables
    && cmd.clientOrderId !in s.seen
    && TotalCooking(s) < settings.maxOrdersGlobal
    && CookingCount(s, topicTable) < settings.maxOrdersPerTable
  }

  /** Where a cook task stands. `Cancelled` lasts until the task has unwound. */
  datatype Phase = Spawned | Sleeping(due: Millis) | Publishing | Cancelled

  datatype CookTask = CookTask(tableId: TableId, orderId: OrderId, cookSeconds: nat, phase: Phase)

  predicate Unserved(c: CookTask) {
    c.phase.Spawned? || c.phase.Sleeping?
  }

  /** Where the session and its message consumer stand. `begun` says whether the first of the
      listed snapshots has been handed over: until then there has been no await. */
  datatype Main =
    | Offline
    | Subscribing
    | Announcing(todo: seq<TableState>, begun: bool)
    | Idle
    | Accepting(tableId: TableId, order: Order)
    | Cancelling
    | Resetting(todo: seq<TableState>, begun: bool)
    | Stopping

  /** `ledger` and `keys` are history: every order accepted in this generation, never trimmed,
      and the client keys they came with. `orphans` are orders whose publish raised before
      their cook was spawned. */
  datatype Kitchen = Kitchen(
    now: Millis,
    store: Store,
    main: Main,
    tasks: map<nat, CookTask>,
    nextTask: nat,
    nextOrder: OrderId,
    orphans: set<OrderId>,
    ledger: map<TableId, seq<Order>>,
    keys: seq<string>)

  datatype Action =
    | Tick(elapsed: nat)
    | Connect
    | AnnounceStart
    | AnnounceNext
    | AnnounceDone
    | Receive(topicTable: TableId, cmd: OrderPlaced, delay: int)
    | SpawnCook
    | AcceptRaise
    | ResetBegin
    | ResetCommit
    | ResetNext
    | ResetDone
    | ResetRaise
    | TaskStart(task: nat)
    | TaskWake(task: nat)
    | TaskReturn(task: nat)
    | TaskRaise(task: nat)
    | TaskReap(task: nat)
    | SessionEnd
    | Stop
    | Restart

  function Fresh(settings: Settings, epoch: Epoch, now: Millis): Kitchen {
    Kitchen(now,
            Store(epoch, map t | t in settings.tables :: TableRecord(0, []), [],
                  settings.dedupeCacheSize, settings.maxServedHistory),
            Offline, map[], 0, 0, {},
            map t | t in settings.tables :: [], [])
  }

  predicate Consuming(m: Main) {
    m.Idle? || m.Accepting? || m.Cancelling? || m.Resetting?
  }

  /** The main coroutine is at an await, where the tasks can run and the stop signal can come. */
  predicate AtAwait(m: Main) {
    m.Announcing? || m.Resetting? ==> m.begun
  }

  predicate Enabled(settings: Settings, k: Kitchen, a: Action) {
    match a
    case Tick(_) => true
    case Connect => k.main.Offline?
    case AnnounceStart => k.main.Subscribing?
    case AnnounceNext => k.main.Announcing? && k.main.todo != []
    case AnnounceDone => k.main.Announcing? && k.main.todo == []
    case Receive(_, _, _) => k.main.Idle?
    case SpawnCook => k.main.Accepting?
    case AcceptRaise => k.main.Accepting?
    case ResetBegin => k.main.Idle? && settings.enableReset
    case ResetCommit => k.main.Cancelling? && k.tasks == map[]
    case ResetNext => k.main.Resetting? && k.main.todo != []
    case ResetDone => k.main.Resetting? && k.main.todo == []
    case ResetRaise => k.main.Resetting? && k.main.begun
    case TaskStart(i) => AtAwait(k.main) && i in k.tasks && k.tasks[i].phase.Spawned?
    case TaskWake(i) =>
      AtAwait(k.main) && i in k.tasks && k.tasks[i].phase.Sleeping? && k.tasks[i].phase.due <= k.now
    case TaskReturn(i) => AtAwait(k.main) && i in k.tasks && k.tasks[i].phase.Publishing?
    case TaskRaise(i) => AtAwait(k.main) && i in k.tasks && k.tasks[i].phase.Publishing?
    case TaskReap(i) => AtAwait(k.main) && i in k.tasks && k.tasks[i].phase.Cancelled?
    case SessionEnd => k.main.Idle? || k.main.Subscribing?
    case Stop => Consuming(k.main) && AtAwait(k.main)
    case Restart => true
  }

  function WithPhase(k: Kitchen, i: nat, p: Phase): Kitchen
    requires i in k.tasks
  {
    k.(tasks := k.tasks[i := k.tasks[i].(phase := p)])
  }

  function WithoutTask(k: Kitchen, i: nat): Kitchen {
    k.(tasks := k.tasks - {i})
  }

  function CancelAll(k: Kitchen): Kitchen {
    k.(tasks := map i | i in k.tasks :: k.tasks[i].(phase := Cancelled))
  }

  /** The kitchen after a finish that took effect, history included. */
  function Finished(k: Kitchen, store: Store, t: TableId, id: OrderId, status: OrderStatus): Kitchen {
    k.(store := store,
       ledger := if t in k.ledger then k.ledger[t := Mark(k.ledger[t], id, status, k.now)] else k.ledger)
  }

  /** The kitchen once an order is committed and its snapshot is being published. */
  function Commit(k: Kitchen, cmd: OrderPlaced, order: Order, store: Store): Kitchen {
    k.(store := store,
       main := Accepting(cmd.tableId, order),
       nextOrder := k.nextOrder + 1,
       ledger := if cmd.tableId in k.ledger
                 then k.ledger[cmd.tableId := k.ledger[cmd.tableId] + [order]] else k.ledger,
       keys := k.keys + [cmd.clientOrderId])
  }

  function AfterReceive(settings: Settings, k: Kitchen, topicTable: TableId, cmd: OrderPlaced, delay: int): Kitchen {
    match TryAccept(settings, k.store, cmd, topicTable, k.nextOrder, delay, k.now)
    case Accepted(order, store) => Commit(k, cmd, order, store)
    case _ => k
  }

  /** The cook's sleep is over: serve, and hand the snapshot over for publishing. */
  function AfterWake(k: Kitchen, i: nat): Kitchen
    requires i in k.tasks
  {
    var c := k.tasks[i];
    match FinishOrder(k.store, c.tableId, c.orderId, Served, k.now)
    case None => WithoutTask(k, i)
    case Some(store) => WithPhase(Finished(k, store, c.tableId, c.orderId, Served), i, Publishing)
  }

  /** Publishing raised: the last-resort handler tries to mark the dish failed. */
  function AfterRaise(k: Kitchen, i: nat): Kitchen
    requires i in k.tasks
  {
    var c := k.tasks[i];
    match FinishOrder(k.store, c.tableId, c.orderId, Failed, k.now)
    case None => WithoutTask(k, i)
    case Some(store) => WithoutTask(Finished(k, store, c.tableId, c.orderId, Failed), i)
  }

  function Next(settings: Settings, k: Kitchen, a: Action): Kitchen
    requires Enabled(settings, k, a)
  {
    match a
    case Tick(d) => k.(now := k.now + d)
    case Connect => k.(main := Subscribing)
    case AnnounceStart => k.(main := Announcing(AllSnapshots(k.store, k.now), false))
    case AnnounceNext => k.(main := Announcing(k.main.todo[1..], true))
    case AnnounceDone => k.(main := Idle)
    case Receive(topicTable, cmd, delay) => AfterReceive(settings, k, topicTable, cmd, delay)
    case SpawnCook =>
      var c := CookTask(k.main.tableId, k.main.order.orderId, k.main.order.cookSeconds, Spawned);
      k.(main := Idle, tasks := k.tasks[k.nextTask := c], nextTask := k.nextTask + 1)
    case AcceptRaise => k.(main := Idle, orphans := k.orphans + {k.main.order.orderId})
    case ResetBegin => CancelAll(k).(main := Cancelling)
    case ResetCommit =>
      var store := Reset(k.store, k.store.epoch + 1);
      k.(store := store, main := Resetting(AllSnapshots(store, k.now), false), orphans := {},
         ledger := map t | t in k.ledger :: [], keys := [])
    case ResetNext => k.(main := Resetting(k.main.todo[1..], true))
    case ResetDone => k.(main := Idle)
    case ResetRaise => k.(main := Idle)
    case TaskStart(i) => WithPhase(k, i, Sleeping(k.now + 1000 * k.tasks[i].cookSeconds))
    case TaskWake(i) => AfterWake(k, i)
    case TaskReturn(i) => WithoutTask(k, i)
    case TaskRaise(i) => AfterRaise(k, i)
    case TaskReap(i) => WithoutTask(k, i)
    case SessionEnd => k.(main := Offline)
    case Stop => CancelAll(k).(main := Stopping)
    case Restart => Fresh(settings, k.store.epoch + 1, k.now)
  }

  /** The table snapshot an action hands to the publisher, if any. */
  function Sent(settings: Settings, k: Kitchen, a: Action): Option<TableState>
    requires Enabled(settings, k, a)
  {
    match a
    case AnnounceNext => Some(k.main.todo[0])
    case ResetNext => Some(k.main.todo[0])
    case Receive(topicTable, cmd, delay) =>
      (match TryAccept(settings, k.store, cmd, topicTable, k.nextOrder, delay, k.now)
       case Accepted(_, store) =>
         if cmd.tableId in store.tables then Some(Snapshot(store, cmd.tableId, k.now)) else None
       case _ => None)
    case TaskWake(i) => SentByFinish(k, i, Served)
    case TaskRaise(i) => SentByFinish(k, i, Failed)
    case _ => None
  }

  function SentByFinish(k: Kitchen, i: nat, status: OrderStatus): Option<TableState>
    requires i in k.tasks
  {
    var c := k.tasks[i];
    match FinishOrder(k.store, c.tableId, c.orderId, status, k.now)
    case None => None
    case Some(store) => if c.tableId in store.tables then Some(Snapshot(store, c.tableId, k.now)) else None
  }

  /** Snapshots taken but not yet published. */
  function Todo(k: Kitchen): seq<TableState> {
    match k.main
    case Announcing(todo, _) => todo
    case Resetting(todo, _) => todo
    case _ => []
  }
}
