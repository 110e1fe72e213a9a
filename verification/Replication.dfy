/** From a versioned source, over a lossy link and a broker, to browsers that fold snapshots.

    The source is all the kitchen shows of itself: its generation, its table records, and the
    snapshots it has taken but not yet published. The link is one session's FIFO pipe to the
    broker; a cut loses what is in the pipe. The broker's log is what it has received, its
    retained slot for a table the last entry for that table. */
module Replication {
  import opened Models
  import opened StoreModel
  import opened Reducer

  datatype Source = Source(epoch: Epoch, tables: map<TableId, TableRecord>, todo: seq<TableState>)

  datatype Effect =
    | Quiet
    | Bump(tableId: TableId, record: TableRecord, at: Millis)  // one table changes and is published
    | ListAll(todo: seq<TableState>)                           // an announce takes its snapshots
    | Replay                                                   // the next snapshot taken is published
    | Abandon                                                  // snapshots taken are given up
    | Renew(todo: seq<TableState>)                             // a reset begins a generation
    | Relaunch                                                 // the process restarts

  /** A browser window. `since` is where in the log its subscription began, `cursor` the next
      entry to be delivered, and `owed` holds, per table, the log index of the retained message
      still to come. */
  datatype Client = Client(
    view: TableMap,
    subscribed: bool,
    since: nat,
    cursor: nat,
    owed: map<TableId, nat>)

  /** `taken`, `intact`, `mark`, `touched` and `lagging` are history: every snapshot ever
      taken; whether every publish since the last announce began was handed to a link that
      has stayed up; where in the stream that announce began; the tables changed since; and
      the tables whose last publish was a snapshot already out of date. */
  datatype Wire = Wire(
    up: bool,
    log: seq<TableState>,
    pipe: seq<TableState>,
    taken: set<TableState>,
    intact: bool,
    mark: nat,
    touched: set<TableId>,
    lagging: set<TableId>,
    clients: map<int, Client>)

  function Stream(w: Wire): seq<TableState> {
    w.log + w.pipe
  }

  /** A snapshot says exactly what the source holds, its time stamp aside. */
  predicate Current(src: Source, m: TableState) {
    && m.tableId in src.tables
    && m.epoch == src.epoch
    && m.version == src.tables[m.tableId].version
    && m.orders == src.tables[m.tableId].orders
  }

  ghost predicate DistinctTables(todo: seq<TableState>) {
    forall i, j :: 0 <= i < j < |todo| ==> todo[i].tableId != todo[j].tableId
  }

  ghost predicate Mentions(ms: seq<TableState>, t: TableId) {
    exists m :: m in ms && m.tableId == t
  }

  /** One current snapshot of every table. */
  ghost predicate Complete(src: Source, todo: seq<TableState>) {
    && (forall m :: m in todo ==> Current(src, m))
    && DistinctTables(todo)
    && (forall t :: t in src.tables ==> Mentions(todo, t))
  }

  function Renewed(src: Source): Source {
    Source(src.epoch + 1, map t | t in src.tables :: TableRecord(0, []), [])
  }

  ghost predicate Possible(src: Source, e: Effect) {
    match e
    case Bump(t, record, _) => t in src.tables && record.version == src.tables[t].version + 1
    case ListAll(todo) => src.todo == [] && Complete(src, todo)
    case Replay => src.todo != []
    case Renew(todo) => src.todo == [] && Complete(Renewed(src), todo)
    case _ => true
  }

  function NextSource(src: Source, e: Effect): Source
    requires e.Replay? ==> src.todo != []
  {
    match e
    case Quiet => src
    case Bump(t, record, _) => src.(tables := src.tables[t := record])
    case ListAll(todo) => src.(todo := todo)
    case Replay => src.(todo := src.todo[1..])
    case Abandon => src.(todo := [])
    case Renew(todo) => Renewed(src).(todo := todo)
    case Relaunch => Renewed(src)
  }

  function Emission(src: Source, e: Effect): Option<TableState>
    requires e.Replay? ==> src.todo != []
  {
    match e
    case Bump(t, record, at) => Some(TableState(t, src.epoch, record.version, at, record.orders))
    case Replay => Some(src.todo[0])
    case _ => None
  }

  function Members(ms: seq<TableState>): set<TableState> {
    set m | m in ms
  }

  function Emit(w: Wire, m: TableState, handed: bool): Wire {
    w.(pipe := if handed then w.pipe + [m] else w.pipe, intact := w.intact && handed)
  }

  /** The wire after the source acts; `handed` says whether a publish reached the link. */
  function NextWire(src: Source, w: Wire, e: Effect, handed: bool): Wire
    requires e.Replay? ==> src.todo != []
  {
    match e
    case Quiet => w
    case Bump(t, record, at) =>
      var m := Emission(src, e).value;
      Emit(w.(taken := w.taken + {m}, touched := w.touched + {t}, lagging := w.lagging - {t}), m, handed)
    case ListAll(todo) =>
      w.(taken := w.taken + Members(todo), intact := w.up, mark := |Stream(w)|, touched := {})
    case Replay =>
      var m := src.todo[0];
      Emit(w.(lagging := if m.tableId in w.touched then w.lagging + {m.tableId} else w.lagging - {m.tableId}),
           m, handed)
    case Abandon => w.(intact := w.intact && src.todo == [])
    case Renew(todo) => w.(taken := w.taken + Members(todo), touched := {})
    case Relaunch => w.(up := false, pipe := [], intact := false)
  }

  // --- the link, the broker and the windows -----------------------------------------------

  datatype LinkAction =
    | Cut
    | Arrive
    | Subscribe(client: int)
    | Leave(client: int)
    | Retained(client: int, tableId: TableId)
    | Deliver(client: int)
    | Redeliver(client: int, to: nat)

  function LastIndex(ms: seq<TableState>, t: TableId): (r: Option<nat>)
    ensures r.Some? ==> r.value < |ms| && ms[r.value].tableId == t
    ensures r.Some? ==> forall i :: r.value < i < |ms| ==> ms[i].tableId != t
    ensures r.None? ==> forall i :: 0 <= i < |ms| ==> ms[i].tableId != t
  {
    if ms == [] then None
    else if ms[|ms| - 1].tableId == t then Some(|ms| - 1)
    else LastIndex(ms[..|ms| - 1], t)
  }

  /** The broker's retained slot for a table. */
  function Slot(ms: seq<TableState>, t: TableId): Option<TableState> {
    match LastIndex(ms, t)
    case None => None
    case Some(i) => Some(ms[i])
  }

  function Slots(ms: seq<TableState>): map<TableId, nat> {
    map t | t in (set m | m in ms :: m.tableId) && LastIndex(ms, t).Some? :: LastIndex(ms, t).value
  }

  predicate Listening(w: Wire, c: int) {
    c in w.clients && w.clients[c].subscribed
  }

  predicate LinkEnabled(w: Wire, a: LinkAction) {
    match a
    case Cut => true
    case Arrive => w.up && w.pipe != []
    case Subscribe(c) => true
    case Leave(c) => Listening(w, c)
    case Retained(c, t) =>
      Listening(w, c) && t in w.clients[c].owed && w.clients[c].owed[t] < |w.log|
    case Deliver(c) => Listening(w, c) && w.clients[c].cursor < |w.log|
    case Redeliver(c, to) => Listening(w, c) && w.clients[c].since <= to <= w.clients[c].cursor
  }

  function WithClient(w: Wire, c: int, client: Client): Wire {
    w.(clients := w.clients[c := client])
  }

  function NextLink(w: Wire, a: LinkAction): Wire
    requires LinkEnabled(w, a)
  {
    match a
    case Cut => w.(up := false, pipe := [], intact := false)
    case Arrive => w.(log := w.log + [w.pipe[0]], pipe := w.pipe[1..])
    case Subscribe(c) =>
      var view := if c in w.clients then w.clients[c].view else map[];
      WithClient(w, c, Client(view, true, |w.log|, |w.log|, Slots(w.log)))
    case Leave(c) => WithClient(w, c, w.clients[c].(subscribed := false))
    case Retained(c, t) =>
      var client := w.clients[c];
      WithClient(w, c, client.(view := ApplyTableState(client.view, w.log[client.owed[t]]), owed := client.owed - {t}))
    case Deliver(c) =>
      var client := w.clients[c];
      WithClient(w, c, client.(view := ApplyTableState(client.view, w.log[client.cursor]), cursor := client.cursor + 1))
    case Redeliver(c, to) =>
      WithClient(w, c, w.clients[c].(cursor := to))
  }

  // --- invariants -------------------------------------------------------------------------

  /** No snapshot is ahead of the source, and one that is level with it agrees with it. */
  ghost predicate NotAhead(src: Source, m: TableState) {
    && m.tableId in src.tables
    && m.epoch <= src.epoch
    && (m.epoch == src.epoch ==>
          && m.version <= src.tables[m.tableId].version
          && (m.version == src.tables[m.tableId].version ==> m.orders == src.tables[m.tableId].orders))
  }

  ghost predicate SameStamp(a: TableState, b: TableState) {
    a.tableId == b.tableId && a.epoch == b.epoch && a.version == b.version
  }

  /** A version determines content, over every snapshot ever taken. */
  ghost predicate Archive(src: Source, w: Wire) {
    && (forall m :: m in w.taken ==> NotAhead(src, m))
    && (forall a, b :: a in w.taken && b in w.taken && SameStamp(a, b) ==> a.orders == b.orders)
  }

  /** Generations never go backwards in what the broker receives. */
  ghost predicate InOrder(ms: seq<TableState>) {
    forall i, j :: 0 <= i < j < |ms| ==> ms[i].epoch <= ms[j].epoch
  }

  ghost predicate Flow(src: Source, w: Wire) {
    && (forall m :: m in Stream(w) || m in src.todo ==> m in w.taken)
    && InOrder(Stream(w))
    && (forall m :: m in src.todo ==> m.epoch == src.epoch)
    && DistinctTables(src.todo)
    && (!w.up ==> w.pipe == [])
    && (w.intact ==> w.up)
  }

  /** The source's present version of a table is in the stream, at or after `from`. */
  ghost predicate Covered(src: Source, ms: seq<TableState>, from: nat, t: TableId)
    requires t in src.tables
  {
    exists i :: from <= i < |ms| && ms[i].tableId == t && Current(src, ms[i])
  }

  ghost predicate Pending(src: Source, t: TableId) {
    exists m :: m in src.todo && m.tableId == t && Current(src, m)
  }

  ghost predicate Coverage(src: Source, w: Wire) {
    w.intact ==>
      && w.mark <= |Stream(w)|
      && forall t :: t in src.tables ==> Covered(src, Stream(w), w.mark, t) || Pending(src, t)
  }

  ghost predicate SlotCurrent(src: Source, ms: seq<TableState>, t: TableId) {
    Slot(ms, t).Some? && Current(src, Slot(ms, t).value)
  }

  /** Which of the stream's last entries are out of date, exactly. */
  ghost predicate SlotsKnown(src: Source, w: Wire) {
    && (forall m :: m in src.todo ==> (m.tableId in w.touched <==> !Current(src, m)))
    && (w.intact ==> forall t :: t in src.tables && !Mentions(src.todo, t) ==>
          (SlotCurrent(src, Stream(w), t) <==> t !in w.lagging))
  }

  ghost predicate ViewSound(log: seq<TableState>, view: TableMap) {
    forall t :: t in view ==> view[t].tableId == t && view[t] in log
  }

  ghost predicate ClientSound(log: seq<TableState>, c: Client) {
    && ViewSound(log, c.view)
    && (c.subscribed ==>
          && c.since <= c.cursor <= |log|
          && (forall t :: t in c.owed ==> LastIndex(log[..c.since], t) == Some(c.owed[t])))
  }

  ghost predicate Windows(w: Wire) {
    forall c :: c in w.clients ==> ClientSound(w.log, w.clients[c])
  }

  ghost predicate ReplicationInv(src: Source, w: Wire) {
    && Archive(src, w)
    && Flow(src, w)
    && Coverage(src, w)
    && SlotsKnown(src, w)
    && Windows(w)
  }
}
