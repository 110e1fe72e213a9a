/** The kitchen as an object: each coroutine written out as in the source, with every await
    handing control to an arbitrary schedule of the other tasks. What each coroutine does is
    proved to be a run of the transition system in KitchenModel. */
module HeapKitchen {
  import opened Models
  import opened HeapStore
  import opened KitchenInvariants
  import opened KitchenProofs
  import Topics
  import W = WireFormat
  import K = KitchenModel
  import M = StoreModel

  // --- what leaves the kitchen ----------------------------------------------------------------

  datatype Rejection = Rejection(
    clientId: Option<string>, clientOrderId: Option<string>, tableId: Option<TableId>, reason: RejectionReason)

  datatype Message =
    | TableMessage(state: TableState)
    | RejectionMessage(rejection: Rejection)
    | StatusMessage(online: bool)

  /** Where a message goes: a table's state topic, its author's error topic, or the status topic.
      A rejection without an author goes nowhere. */
  function TopicOf(m: Message): Option<string> {
    match m
    case TableMessage(state) => Some(Topics.TableStateTopic(state.tableId))
    case RejectionMessage(rejection) =>
      if rejection.clientId.None? then None else Some(Topics.ClientErrorTopic(rejection.clientId.value))
    case StatusMessage(_) => Some(Topics.KITCHEN_STATUS)
  }

  /** Whether the broker is to keep it for later subscribers. */
  predicate Retain(m: Message) {
    !m.RejectionMessage?
  }

  /** What becomes of a publish on a live client. */
  datatype Delivery = Taken | BrokerError | OtherError

  /** Outlives every session; between sessions it has no client. `handed` is history: the
      messages the clients have taken. */
  class ReconnectingPublisher {
    var client: Option<int>
    ghost var handed: seq<Message>

    constructor ()
      ensures client == None && handed == []
    {
      client, handed := None, [];
    }

    method Attach(client: int)
      modifies this`client
      ensures this.client == Some(client)
    {
      this.client := Some(client);
    }

    method Detach()
      modifies this`client
      ensures client == None
    {
      client := None;
    }

    /** Never queues: without a client, or on a broker error, the message is dropped. Only an
        error that is not the broker's own is passed on. */
    method Publish(m: Message, delivery: Delivery) returns (raised: bool)
      modifies this`handed
      ensures raised <==> client.Some? && delivery == OtherError
      ensures handed == old(handed) + (if client.Some? && delivery == Taken then [m] else [])
    {
      if client == None {
        return false;
      }
      match delivery {
        case Taken => handed := handed + [m]; raised := false;
        case BrokerError => raised := false;
        case OtherError => raised := true;
      }
    }
  }

  // --- runs of the model ----------------------------------------------------------------------

  datatype World = World(kitchen: K.Kitchen, attached: bool, handed: seq<Message>)

  datatype Moment = Moment(action: K.Action, delivery: Delivery)

  /** What an await lets happen: how its publish fares, what the other tasks do meanwhile, and
      whether the stop signal comes and cancels the handler there. */
  datatype Pause = Pause(delivery: Delivery, moments: seq<Moment>, stop: bool)

  predicate ByCook(a: K.Action) {
    a.Tick? || a.TaskStart? || a.TaskWake? || a.TaskReturn? || a.TaskRaise? || a.TaskReap?
  }

  predicate ByCooks(moments: seq<Moment>) {
    forall m :: m in moments ==> ByCook(m.action)
  }

  /** Whether another task can take this step now. */
  predicate Ready(tasks: map<nat, K.CookTask>, now: Millis, a: K.Action) {
    match a
    case Tick(_) => true
    case TaskStart(i) => i in tasks && tasks[i].phase.Spawned?
    case TaskWake(i) => i in tasks && tasks[i].phase.Sleeping? && tasks[i].phase.due <= now
    case TaskReturn(i) => i in tasks && tasks[i].phase.Publishing?
    case TaskRaise(i) => i in tasks && tasks[i].phase.Publishing?
    case TaskReap(i) => i in tasks && tasks[i].phase.Cancelled?
    case _ => false
  }

  /** Nothing has been handed over since but table snapshots. */
  ghost predicate GrewByTables(before: seq<Message>, after: seq<Message>) {
    before <= after && forall i :: |before| <= i < |after| ==> after[i].TableMessage?
  }

  /** Nothing but time passing and cancelled tasks unwinding. */
  predicate OnlyUnwinds(trace: seq<Moment>) {
    forall m :: m in trace ==> m.action.Tick? || m.action.TaskReap?
  }

  ghost predicate AllCancelled(tasks: map<nat, K.CookTask>) {
    forall i :: i in tasks ==> tasks[i].phase.Cancelled?
  }

  /** The rejection a valid order meets, addressed to its author. */
  function RefusalOf(cmd: OrderPlaced, topicTable: TableId, reason: RejectionReason): Rejection {
    Rejection(Some(cmd.clientId), Some(cmd.clientOrderId),
              Some(if reason == ValidationFailed then topicTable else cmd.tableId), reason)
  }

  /** The message an action publishes, if any. */
  function Outgoing(settings: Settings, k: K.Kitchen, a: K.Action): seq<Message>
    requires K.Enabled(settings, k, a)
  {
    match K.Sent(settings, k, a)
    case Some(state) => [TableMessage(state)]
    case None =>
      if a.AnnounceDone? then [StatusMessage(true)]
      else if !a.Receive? then []
      else
        match K.TryAccept(settings, k.store, a.cmd, a.topicTable, k.nextOrder, a.delay, k.now)
        case Rejected(reason) => [RejectionMessage(RefusalOf(a.cmd, a.topicTable, reason))]
        case _ => []
  }

  function Step(settings: Settings, w: World, m: Moment): World
    requires K.Enabled(settings, w.kitchen, m.action)
  {
    World(K.Next(settings, w.kitchen, m.action), w.attached,
          w.handed + (if w.attached && m.delivery == Taken then Outgoing(settings, w.kitchen, m.action) else []))
  }

  /** The run `trace` leads from `w` to `w'`. */
  ghost predicate Performs(settings: Settings, w: World, trace: seq<Moment>, w': World)
    decreases |trace|
  {
    if trace == [] then w == w'
    else
      && K.Enabled(settings, w.kitchen, trace[0].action)
      && Performs(settings, Step(settings, w, trace[0]), trace[1..], w')
  }

  lemma {:induction false} PerformsThen(settings: Settings, a: World, s: seq<Moment>, b: World, t: seq<Moment>,
                                        c: World)
    requires Performs(settings, a, s, b) && Performs(settings, b, t, c)
    ensures Performs(settings, a, s + t, c)
    decreases |s|
  {
    hide Step, K.Enabled;
    if s == [] {
      assert s + t == t;
    } else {
      assert (s + t)[1..] == s[1..] + t;
      PerformsThen(settings, Step(settings, a, s[0]), s[1..], b, t, c);
    }
  }

  lemma PerformsOne(settings: Settings, w: World, m: Moment)
    requires K.Enabled(settings, w.kitchen, m.action)
    ensures Performs(settings, w, [m], Step(settings, w, m))
    ensures Own([m]) == if ByCook(m.action) then [] else [m.action]
  {
    hide Step, K.Enabled;
    assert [m][1..] == [];
  }

  /** What the coroutine itself does in a run, the other tasks' doings left out. */
  function Own(trace: seq<Moment>): seq<K.Action> {
    if trace == [] then []
    else if ByCook(trace[0].action) then Own(trace[1..])
    else [trace[0].action] + Own(trace[1..])
  }

  lemma {:induction false} OwnThen(s: seq<Moment>, t: seq<Moment>)
    ensures Own(s + t) == Own(s) + Own(t)
  {
    if s == [] {
      assert s + t == t;
    } else {
      assert (s + t)[1..] == s[1..] + t;
      OwnThen(s[1..], t);
    }
  }

  lemma {:induction false} OwnNothing(moments: seq<Moment>)
    requires ByCooks(moments)
    ensures Own(moments) == []
  {
    if moments == [] {
    } else {
      OwnNothing(moments[1..]);
    }
  }

  /** One more moment at the end of a run. */
  lemma PerformsMore(settings: Settings, a: World, s: seq<Moment>, b: World, m: Moment)
    requires Performs(settings, a, s, b) && K.Enabled(settings, b.kitchen, m.action)
    ensures Performs(settings, a, s + [m], Step(settings, b, m))
    ensures Own(s + [m]) == Own(s) + (if ByCook(m.action) then [] else [m.action])
  {
    hide Performs, Step, K.Enabled;
    PerformsOne(settings, b, m);
    PerformsThen(settings, a, s, b, [m], Step(settings, b, m));
    OwnThen(s, [m]);
    assert [m][1..] == [];
  }

  /** An await at the end of a run. */
  lemma PerformsWait(settings: Settings, a: World, s: seq<Moment>, b: World, t: seq<Moment>, c: World)
    requires Performs(settings, a, s, b) && Performs(settings, b, t, c) && ByCooks(t)
    ensures Performs(settings, a, s + t, c)
    ensures Own(s + t) == Own(s)
  {
    hide Performs;
    PerformsThen(settings, a, s, b, t, c);
    OwnThen(s, t);
    OwnNothing(t);
  }

  /** Of what is scheduled, all that can happen when its turn comes. */
  function Scheduled(settings: Settings, w: World, moments: seq<Moment>): seq<Moment>
    decreases |moments|
  {
    if moments == [] then []
    else if K.Enabled(settings, w.kitchen, moments[0].action) then
      [moments[0]] + Scheduled(settings, Step(settings, w, moments[0]), moments[1..])
    else Scheduled(settings, w, moments[1..])
  }

  /** A schedule that can be kept is kept, to the letter. */
  lemma {:induction false} KeptSchedule(settings: Settings, w: World, moments: seq<Moment>, w': World)
    requires Performs(settings, w, moments, w')
    ensures Scheduled(settings, w, moments) == moments
    decreases |moments|
  {
    hide Step, K.Enabled;
    if moments == [] {
    } else {
      KeptSchedule(settings, Step(settings, w, moments[0]), moments[1..], w');
    }
  }

  /** And what cannot happen in its turn holds up nothing after it. */
  lemma {:induction false} SkippedInSchedule(settings: Settings, w: World, moments: seq<Moment>, w': World, m: Moment,
                                             rest: seq<Moment>)
    requires Performs(settings, w, moments, w') && !K.Enabled(settings, w'.kitchen, m.action)
    ensures Scheduled(settings, w, moments + [m] + rest) == moments + Scheduled(settings, w', rest)
    decreases |moments|
  {
    hide Step, K.Enabled;
    var all := moments + [m] + rest;
    if moments == [] {
      assert all[0] == m && all[1..] == rest;
    } else {
      assert all[0] == moments[0] && all[1..] == moments[1..] + [m] + rest;
      SkippedInSchedule(settings, Step(settings, w, moments[0]), moments[1..], w', m, rest);
    }
  }

  lemma ScheduledNext(settings: Settings, w: World, moments: seq<Moment>)
    requires moments != []
    ensures Scheduled(settings, w, moments) ==
            if K.Enabled(settings, w.kitchen, moments[0].action)
            then [moments[0]] + Scheduled(settings, Step(settings, w, moments[0]), moments[1..])
            else Scheduled(settings, w, moments[1..])
  {
  }

  /** The cooks hand over nothing but table snapshots. */
  lemma CookSaysTables(settings: Settings, w: World, m: Moment)
    requires ByCook(m.action) && K.Enabled(settings, w.kitchen, m.action)
    ensures GrewByTables(w.handed, Step(settings, w, m).handed)
  {
    hide K.Next, K.Sent;
  }

  // --- the kitchen ----------------------------------------------------------------------------

  /** What an inbound payload parses to. */
  datatype Inbound =
    | Unusable(clientId: Option<string>, clientOrderId: Option<string>)
    | Usable(cmd: OrderPlaced)

  /** The bytes of an inbound message, as far as JSON goes. */
  datatype Payload = Garbage | Value(json: W.Json)

  function TextAt(fields: map<string, W.Json>, key: string): Option<string> {
    if W.HasText(fields, key) then Some(fields[key].text) else None
  }

  /** What becomes of a payload: an order, or something to refuse, to whomever an object that
      does not fit the schema names as its author. The schema is a parameter. */
  function ParseOrder(payload: Payload, validate: map<string, W.Json> -> Option<OrderPlaced>): Inbound {
    match payload
    case Garbage => Unusable(None, None)
    case Value(json) =>
      if !json.Object? then Unusable(None, None)
      else
        match validate(json.fields)
        case Some(cmd) => Usable(cmd)
        case None => Unusable(TextAt(json.fields, "clientId"), TextAt(json.fields, "clientOrderId"))
  }

  /** A payload is an order exactly if it is JSON, an object, and fits the schema. */
  lemma UsableExactly(payload: Payload, validate: map<string, W.Json> -> Option<OrderPlaced>, cmd: OrderPlaced)
    ensures ParseOrder(payload, validate) == Usable(cmd) <==>
            payload.Value? && payload.json.Object? && validate(payload.json.fields) == Some(cmd)
  {
  }

  /** An unusable payload is answered exactly if it is an object with a textual client id, and
      then to that client. */
  lemma AnsweredExactly(payload: Payload, validate: map<string, W.Json> -> Option<OrderPlaced>)
    requires ParseOrder(payload, validate).Unusable?
    ensures var answer := AnswerTo(ParseOrder(payload, validate));
            if payload.Value? && payload.json.Object? && W.HasText(payload.json.fields, "clientId")
            then
              && |answer| == 1 && answer[0].RejectionMessage?
              && answer[0].rejection.clientId == Some(payload.json.fields["clientId"].text)
              && answer[0].rejection.clientOrderId
                 == (if W.HasText(payload.json.fields, "clientOrderId")
                     then Some(payload.json.fields["clientOrderId"].text) else None)
              && answer[0].rejection.tableId == None
              && answer[0].rejection.reason == ValidationFailed
            else answer == []
  {
  }

  datatype Outcome =
    | Refused(rejection: Rejection)
    | Ignored
    | Placed(cell: OrderCell, snap: TableSnapshot)

  class Kitchen {
    const settings: Settings
    const store: InMemoryStore
    const publisher: ReconnectingPublisher
    const validate: map<string, W.Json> -> Option<OrderPlaced>
    const python: Topics.Python
    var now: Millis
    var cookTasks: map<nat, K.CookTask>
    var nextTask: nat
    var nextOrder: OrderId
    ghost var main: K.Main  // where the consumer's coroutine stands
    ghost var orphans: set<OrderId>
    ghost var ledger: map<TableId, seq<Order>>
    ghost var keys: seq<string>

    ghost predicate Valid()
      reads this, store, store.Repr
    {
      store.Valid() && store !in store.Repr && this !in store.Repr && publisher !in store.Repr
    }

    ghost function View(): K.Kitchen
      requires Valid()
      reads this, store, store.Repr
    {
      K.Kitchen(now, store.Model(), main, cookTasks, nextTask, nextOrder, orphans, ledger, keys)
    }

    ghost function Whole(): World
      requires Valid()
      reads this, store, store.Repr, publisher
    {
      World(View(), publisher.client.Some?, publisher.handed)
    }

    constructor (settings: Settings, store: InMemoryStore, publisher: ReconnectingPublisher,
                 validate: map<string, W.Json> -> Option<OrderPlaced>, python: Topics.Python, now: Millis)
      requires store.Valid() && publisher !in store.Repr
      requires store.Model() == K.Fresh(settings, store.epoch, now).store
      ensures Valid() && this.store == store && this.publisher == publisher && this.settings == settings
      ensures View() == K.Fresh(settings, store.epoch, now)
    {
      this.settings, this.store, this.publisher, this.now := settings, store, publisher, now;
      this.validate, this.python := validate, python;
      cookTasks, nextTask, nextOrder := map[], 0, 0;
      main, orphans, ledger, keys := K.Offline, {}, map t | t in settings.tables :: [], [];
    }

    /** All the checks an order must pass and, if it passes, its recording, with no await. */
    method TryAccept(cmd: OrderPlaced, topicTable: TableId, delay: int) returns (r: Outcome)
      requires Valid()
      modifies this`nextOrder, store, store.Repr
      ensures Valid() && fresh(store.Repr - old(store.Repr)) && store.tables == old(store.tables)
      ensures match K.TryAccept(settings, old(store.Model()), cmd, topicTable, old(nextOrder), delay, now)
              case Rejected(reason) =>
                && r == Refused(RefusalOf(cmd, topicTable, reason))
                && store.Model() == old(store.Model()) && nextOrder == old(nextOrder)
              case Duplicate => r == Ignored && store.Model() == old(store.Model()) && nextOrder == old(nextOrder)
              case Accepted(order, after) =>
                && r.Placed? && r.cell.Value() == order
                && store.Model() == after && nextOrder == old(nextOrder) + 1
                && cmd.tableId in after.tables && r.snap.Value() == M.Snapshot(after, cmd.tableId, now)
                && Apart(store, r.snap)
    {
      hide M.AddOrder, M.Remember, M.Snapshot, M.TotalCooking, M.CookingCount, Values;
      store.RecordOf(cmd.tableId);
      if cmd.tableId != topicTable {
        return Refused(RefusalOf(cmd, topicTable, ValidationFailed));
      }
      if !store.HasTable(cmd.tableId) {
        return Refused(RefusalOf(cmd, topicTable, UnknownTable));
      }
      if store.IsDuplicate(cmd.clientOrderId) {
        return Ignored;
      }
      var total := store.TotalCookingCount();
      if total >= settings.maxOrdersGlobal {
        return Refused(RefusalOf(cmd, topicTable, KitchenAtCapacity));
      }
      var count := store.CookingCount(cmd.tableId);
      if count >= settings.maxOrdersPerTable {
        return Refused(RefusalOf(cmd, topicTable, TableAtCapacity));
      }
      hide Valid;
      r := Commit(cmd, delay);
    }

    /** The dedupe key and the order are recorded together. */
    method Commit(cmd: OrderPlaced, delay: int) returns (r: Outcome)
      requires Valid() && cmd.tableId in store.Model().tables
      modifies this`nextOrder, store, store.Repr
      ensures Valid() && fresh(store.Repr - old(store.Repr)) && store.tables == old(store.tables)
      ensures nextOrder == old(nextOrder) + 1
      ensures r.Placed? && r.cell.Value() == K.NewOrder(cmd, old(nextOrder), delay, now)
      ensures store.Model() ==
              M.AddOrder(M.Remember(old(store.Model()), cmd.clientOrderId), cmd.tableId, r.cell.Value())
      ensures cmd.tableId in store.Model().tables && r.snap.Value() == M.Snapshot(store.Model(), cmd.tableId, now)
      ensures Apart(store, r.snap)
    {
      hide InMemoryStore.Valid, InMemoryStore.Model, M.AddOrder, M.Remember, M.Snapshot, Values;
      store.RecordOf(cmd.tableId);
      store.RememberClientOrder(cmd.clientOrderId);
      store.RecordOf(cmd.tableId);
      var cell := new OrderCell(K.NewOrder(cmd, nextOrder, delay, now));
      var snap := store.AddOrder(cmd.tableId, cell, now);
      store.RecordOf(cmd.tableId);
      nextOrder := nextOrder + 1;
      r := Placed(cell, snap);
    }

    // --- cooks --------------------------------------------------------------------------------

    function Passed(state: Option<TableState>, delivery: Delivery): seq<Message>
      reads publisher
    {
      if state.Some? && publisher.client.Some? && delivery == Taken then [TableMessage(state.value)] else []
    }

    /** Move a task's dish out of cooking, if it still is there. */
    method FinishDish(c: K.CookTask, status: OrderStatus) returns (snap: Option<TableSnapshot>)
      requires Valid()
      modifies this`ledger, store.Repr
      ensures Valid() && store.Repr == old(store.Repr)
      ensures match M.FinishOrder(old(store.Model()), c.tableId, c.orderId, status, now)
              case None => snap == None && View() == old(View())
              case Some(after) =>
                && View() == K.Finished(old(View()), after, c.tableId, c.orderId, status)
                && snap.Some? && c.tableId in after.tables
                && snap.value.Value() == M.Snapshot(after, c.tableId, now)
    {
      hide InMemoryStore.Valid, InMemoryStore.Model, M.FinishOrder, M.Snapshot, Values;
      store.RecordOf(c.tableId);
      ghost var before := View();
      snap := store.FinishOrder(c.tableId, c.orderId, status, now);
      if snap.Some? {
        ledger := K.Finished(before, store.Model(), c.tableId, c.orderId, status).ledger;
      }
    }

    /** The stretch of a cook that begins when its sleep is over. */
    method Serve(i: nat, delivery: Delivery)
      requires Valid() && i in cookTasks
      modifies this`cookTasks, this`ledger, store.Repr, publisher`handed
      ensures Valid() && store.Repr == old(store.Repr)
      ensures View() == K.AfterWake(old(View()), i)
      ensures publisher.handed == old(publisher.handed) + Passed(K.SentByFinish(old(View()), i, Served), delivery)
    {
      hide InMemoryStore.Valid, InMemoryStore.Model, M.FinishOrder, M.Snapshot, Values, K.AfterWake, K.SentByFinish;
      WakeEither(View(), i);
      var snap := FinishDish(cookTasks[i], Served);
      if snap.None? {
        cookTasks := cookTasks - {i};
      } else {
        cookTasks := cookTasks[i := cookTasks[i].(phase := K.Publishing)];
        var _ := publisher.Publish(TableMessage(snap.value.Value()), delivery);
      }
    }

    /** Publishing raised: the last resort, and the end of the task. */
    method MarkFailed(i: nat, delivery: Delivery)
      requires Valid() && i in cookTasks
      modifies this`cookTasks, this`ledger, store.Repr, publisher`handed
      ensures Valid() && store.Repr == old(store.Repr)
      ensures View() == K.AfterRaise(old(View()), i)
      ensures publisher.handed == old(publisher.handed) + Passed(K.SentByFinish(old(View()), i, Failed), delivery)
    {
      hide InMemoryStore.Valid, M.FinishOrder, M.Snapshot, Values, K.Finished;
      var snap := FinishDish(cookTasks[i], Failed);
      if snap.Some? {
        var _ := publisher.Publish(TableMessage(snap.value.Value()), delivery);
      }
      cookTasks := cookTasks - {i};
    }

    /** One stretch of one task, or the passing of time. */
    method OtherTask(m: Moment)
      requires Valid() && ByCook(m.action) && K.Enabled(settings, View(), m.action)
      modifies this`now, this`cookTasks, this`ledger, store.Repr, publisher`handed
      ensures Valid() && store.Repr == old(store.Repr)
      ensures Whole() == Step(settings, old(Whole()), m)
    {
      hide InMemoryStore.Valid, InMemoryStore.Model, K.AfterWake, K.AfterRaise, K.SentByFinish;
      match m.action {
        case Tick(elapsed) => now := now + elapsed;
        case TaskStart(i) =>
          var c := cookTasks[i];
          cookTasks := cookTasks[i := c.(phase := K.Sleeping(now + 1000 * c.cookSeconds))];
        case TaskWake(i) => Serve(i, m.delivery);
        case TaskReturn(i) => cookTasks := cookTasks - {i};
        case TaskRaise(i) => MarkFailed(i, m.delivery);
        case TaskReap(i) => cookTasks := cookTasks - {i};
      }
    }

    /** Give up control: the other tasks do whatever they are scheduled to do and can. */
    method Await(moments: seq<Moment>) returns (ghost trace: seq<Moment>)
      requires Valid() && ByCooks(moments) && K.AtAwait(main)
      modifies this`now, this`cookTasks, this`ledger, store.Repr, publisher`handed
      ensures Valid() && store.Repr == old(store.Repr)
      ensures ByCooks(trace) && Performs(settings, old(Whole()), trace, Whole())
      ensures trace == Scheduled(settings, old(Whole()), moments)
      ensures cookTasks.Keys <= old(cookTasks.Keys) && GrewByTables(old(publisher.handed), publisher.handed)
      ensures old(AllCancelled(cookTasks)) ==>
                AllCancelled(cookTasks) && OnlyUnwinds(trace) && store.Model() == old(store.Model())
    {
      hide Performs, Step, InMemoryStore.Valid, InMemoryStore.Model, Own, Scheduled, GrewByTables;
      trace := [];
      PerformsNothing(settings, Whole());
      NothingGrew(publisher.handed);
      var i := 0;
      assert moments[0..] == moments;
      while i < |moments|
        invariant 0 <= i <= |moments|
        invariant Valid() && store.Repr == old(store.Repr)
        invariant Scheduled(settings, old(Whole()), moments) == trace + Scheduled(settings, Whole(), moments[i..])
        invariant cookTasks.Keys <= old(cookTasks.Keys) && GrewByTables(old(publisher.handed), publisher.handed)
        invariant ByCooks(trace) && Performs(settings, old(Whole()), trace, Whole())
        invariant old(AllCancelled(cookTasks)) ==>
                    AllCancelled(cookTasks) && OnlyUnwinds(trace) && store.Model() == old(store.Model())
      {
        var m := moments[i];
        assert moments[i..][0] == m && moments[i..][1..] == moments[i + 1..];
        ScheduledNext(settings, Whole(), moments[i..]);
        if Ready(cookTasks, now, m.action) {
          PerformsMore(settings, old(Whole()), trace, Whole(), m);
          CancelledStays(settings, Whole(), m);
          CookSaysTables(settings, Whole(), m);
          GrewMore(old(publisher.handed), publisher.handed, Step(settings, Whole(), m).handed);
          OtherTask(m);
          trace := trace + [m];
        }
        i := i + 1;
      }
      ScheduledNothing(settings, Whole(), moments[i..]);
    }

    // --- orders -------------------------------------------------------------------------------

    /** The stretch from an order's arrival to its first await. */
    method Receive(topicTable: TableId, cmd: OrderPlaced, delay: int, delivery: Delivery)
        returns (r: Outcome, raised: bool)
      requires Valid() && main.Idle?
      modifies this, store, store.Repr, publisher`handed
      ensures Valid() && fresh(store.Repr - old(store.Repr)) && store.tables == old(store.tables)
      ensures Whole() == Step(settings, old(Whole()), Moment(K.Receive(topicTable, cmd, delay), delivery))
      ensures raised <==> !r.Ignored? && publisher.client.Some? && delivery == OtherError
      ensures match K.TryAccept(settings, old(store.Model()), cmd, topicTable, old(nextOrder), delay, old(now))
              case Rejected(_) => r.Refused? && main.Idle?
              case Duplicate => r.Ignored? && main.Idle?
              case Accepted(order, _) => r.Placed? && r.cell.Value() == order && main == K.Accepting(topicTable, order)
    {
      hide InMemoryStore.Valid, InMemoryStore.Model, Step, K.TryAccept, M.Snapshot, RefusalOf, Values, Apart,
           OrderCell.Value;
      ghost var k := View();
      ReceiveStep(settings, Whole(), topicTable, cmd, delay, delivery);
      r := TryAccept(cmd, topicTable, delay);
      match r {
        case Refused(rejection) =>
          raised := publisher.Publish(RejectionMessage(rejection), delivery);
        case Ignored =>
          raised := false;
        case Placed(cell, snap) =>
          ghost var after := K.Commit(k, cmd, cell.Value(), store.Model());
          main, ledger, keys := after.main, after.ledger, after.keys;
          raised := publisher.Publish(TableMessage(snap.Value()), delivery);
      }
    }

    /** Everything after the table id and the payload have been read. The cook is spawned, not
        awaited; if publishing raises, the exception ends the handler before that, and so does
        the stop signal, which leaves the order accepted and the handler where it stood. */
    method HandleOrder(topicTable: TableId, cmd: OrderPlaced, delay: int, pause: Pause)
        returns (cut: bool, ghost trace: seq<Moment>)
      requires Valid() && main.Idle? && ByCooks(pause.moments)
      modifies this, store, store.Repr, publisher`handed
      ensures Valid() && fresh(store.Repr - old(store.Repr)) && store.tables == old(store.tables)
      ensures Performs(settings, old(Whole()), trace, Whole())
      ensures K.Consuming(main) && K.AtAwait(main) && (!cut ==> main.Idle?)
      ensures cut ==> pause.stop
      ensures K.Admits(settings, old(store.Model()), cmd, topicTable) && pause.stop ==> cut
      ensures trace != [] && trace[0] == Moment(K.Receive(topicTable, cmd, delay), pause.delivery)
      ensures Own(trace) == if cut then [K.Receive(topicTable, cmd, delay)]
                            else OrderRun(old(Whole()), settings, topicTable, cmd, delay, pause.delivery)
      ensures var failed := publisher.client.Some? && pause.delivery == OtherError;
              OrderSettled(settings, old(View()), View(), topicTable, cmd, delay, failed, cut)
    {
      hide Performs, Step, InMemoryStore.Valid, InMemoryStore.Model, Own, K.TryAccept, K.Enabled, K.Admits,
           OrderSettled;
      ghost var m := Moment(K.Receive(topicTable, cmd, delay), pause.delivery);
      ReceiveLeaves(settings, Whole(), topicTable, cmd, delay, pause.delivery);
      ghost var k, failed := View(), publisher.client.Some? && pause.delivery == OtherError;
      CanReceive(settings, View(), topicTable, cmd, delay);
      PerformsOne(settings, Whole(), m);
      var outcome, raised := Receive(topicTable, cmd, delay, pause.delivery);
      trace := [m];
      cut := false;
      if outcome.Ignored? {
        Settles(settings, k, View(), View(), topicTable, cmd, delay, failed, false);
        return;
      }
      ghost var published := Whole();
      ghost var waited := Await(pause.moments);
      PerformsWait(settings, old(Whole()), trace, published, waited, Whole());
      trace := trace + waited;
      if pause.stop {
        cut := true;
      } else if outcome.Placed? {
        ghost var reached := Whole();
        ghost var more := SpawnCook(outcome.cell, topicTable, raised);
        PerformsThen(settings, old(Whole()), trace, reached, more, Whole());
        OwnThen(trace, more);
        trace := trace + more;
      }
      Settles(settings, k, published.kitchen, View(), topicTable, cmd, delay, failed, cut);
    }

    /** The handler's last stretch: the cook is spawned, or the order is left without one. */
    method SpawnCook(cell: OrderCell, topicTable: TableId, raised: bool) returns (ghost trace: seq<Moment>)
      requires Valid() && main.Accepting? && main.tableId == topicTable
      requires main.order.orderId == cell.orderId && main.order.cookSeconds == cell.cookSeconds
      modifies this`main, this`orphans, this`cookTasks, this`nextTask
      ensures Valid() && main.Idle?
      ensures Performs(settings, old(Whole()), trace, Whole())
      ensures Own(trace) == [if raised then K.AcceptRaise else K.SpawnCook]
      ensures if raised then cookTasks == old(cookTasks) && orphans == old(orphans) + {cell.orderId}
              else
                && orphans == old(orphans)
                && cookTasks == old(cookTasks)[old(nextTask) :=
                     K.CookTask(topicTable, cell.orderId, cell.cookSeconds, K.Spawned)]
    {
      hide Performs, Step, InMemoryStore.Valid, InMemoryStore.Model, Own, K.Enabled;
      ghost var m := Moment(if raised then K.AcceptRaise else K.SpawnCook, Taken);
      AfterAccepting(settings, Whole(), raised);
      CanSpawn(settings, View());
      PerformsNothing(settings, Whole());
      PerformsMore(settings, Whole(), [], Whole(), m);
      trace := [] + [m];
      if raised {
        orphans := orphans + {cell.orderId};
      } else {
        cookTasks := cookTasks[nextTask := K.CookTask(topicTable, cell.orderId, cell.cookSeconds, K.Spawned)];
        nextTask := nextTask + 1;
      }
      main := K.Idle;
    }

    /** A payload that cannot be used is answered only if it named its author. */
    method RejectUnusable(clientId: Option<string>, clientOrderId: Option<string>, pause: Pause)
        returns (cut: bool, ghost trace: seq<Moment>)
      requires Valid() && ByCooks(pause.moments) && K.AtAwait(main)
      modifies this`now, this`cookTasks, this`ledger, store.Repr, publisher`handed
      ensures Valid() && store.Repr == old(store.Repr) && ByCooks(trace) && (cut ==> pause.stop)
      ensures var answer := AnswerTo(Unusable(clientId, clientOrderId));
              Performs(settings, Took(old(Whole()), pause.delivery, answer), trace, Whole())
      ensures cookTasks.Keys <= old(cookTasks.Keys)
    {
      hide Performs, InMemoryStore.Valid, InMemoryStore.Model, Scheduled, GrewByTables;
      cut, trace := false, [];
      if clientId.None? {
        PerformsNothing(settings, Whole());
        assert Whole() == Took(Whole(), pause.delivery, []);
        return;
      }
      var rejection := Rejection(clientId, clientOrderId, None, ValidationFailed);
      var _ := publisher.Publish(RejectionMessage(rejection), pause.delivery);
      trace := Await(pause.moments);
      cut := pause.stop;
    }

    // --- publishing every table ---------------------------------------------------------------

    /** Publish one snapshot taken earlier, and await. */
    method PublishNext(
        state: TableSnapshot, ghost todo: seq<TableState>, ghost begun: bool, next: K.Action, pause: Pause)
        returns (raised: bool, ghost trace: seq<Moment>)
      requires Valid() && (next == K.AnnounceNext || next == K.ResetNext) && ByCooks(pause.moments)
      requires todo != [] && todo[0] == state.Value() && main == Listing(next, todo, begun)
      modifies this`now, this`cookTasks, this`ledger, this`main, store.Repr, publisher`handed
      ensures Valid() && store.Repr == old(store.Repr) && main == Listing(next, todo[1..], true)
      ensures Performs(settings, old(Whole()), trace, Whole()) && Own(trace) == [next]
      ensures raised ==> pause.delivery == OtherError
      ensures var taken := if publisher.client.Some? && pause.delivery == Taken then [TableMessage(todo[0])] else [];
              GrewByTables(old(publisher.handed) + taken, publisher.handed)
      ensures old(cookTasks) == map[] ==> cookTasks == map[] && store.Model() == old(store.Model())
    {
      hide Performs, Own, InMemoryStore.Valid, InMemoryStore.Model, Step, Values, K.Enabled, GrewByTables, Scheduled;
      ghost var m := Moment(next, pause.delivery);
      PerformsNothing(settings, Whole());
      NextStep(settings, Whole(), m);
      PerformsMore(settings, Whole(), [], Whole(), m);
      raised := publisher.Publish(TableMessage(state.Value()), pause.delivery);
      main := Listing(next, todo[1..], true);
      ghost var published := Whole();
      ghost var waited := Await(pause.moments);
      PerformsWait(settings, old(Whole()), [] + [m], published, waited, Whole());
      trace := [m] + waited;
      assert [] + [m] == [m];
    }

    /** Publish snapshots taken earlier, one await each. Meanwhile the cooks go on changing the
        store; what goes out is still what was taken. A reset's loop can be cut short by the stop
        signal, an announce's cannot. */
    method PublishAll(states: seq<TableSnapshot>, ghost values: seq<TableState>, next: K.Action, pauses: nat -> Pause)
        returns (n: nat, raised: bool, cut: bool, ghost trace: seq<Moment>)
      requires Valid() && (next == K.AnnounceNext || next == K.ResetNext)
      requires |values| == |states|
      requires forall i :: 0 <= i < |states| ==> states[i].Value() == values[i] && Apart(store, states[i])
      requires forall i :: ByCooks(pauses(i).moments)
      requires main == Listing(next, values, false)
      modifies this`now, this`cookTasks, this`ledger, this`main, store.Repr, publisher`handed
      ensures Valid() && store.Repr == old(store.Repr)
      ensures Performs(settings, old(Whole()), trace, Whole())
      ensures n <= |states| && Own(trace) == Times(n, next) && main == Listing(next, values[n..], n > 0)
      ensures cut ==> next == K.ResetNext && !raised && n > 0 && pauses(n - 1).stop
      ensures raised ==> n > 0 && pauses(n - 1).delivery == OtherError
      ensures !raised && !cut ==> n == |states|
      ensures publisher.client.Some? ==> HandedAll(old(publisher.handed), publisher.handed, values[..n], pauses)
      ensures GrewByTables(old(publisher.handed), publisher.handed)
      ensures old(cookTasks) == map[] ==> cookTasks == map[] && store.Model() == old(store.Model())
    {
      hide Performs, InMemoryStore.Valid, InMemoryStore.Model, Step, Own, Values, View, Listing, Whole, ByCooks, Times,
           GrewByTables, HandedAll;
      PerformsNothing(settings, Whole());
      TimesGrow(0, next);
      NothingGrew(publisher.handed);
      HandedNone(publisher.handed, pauses);
      trace := [];
      raised, cut := false, false;
      n := 0;
      while n < |states| && !raised && !cut
        invariant n <= |states|
        invariant Valid() && store.Repr == old(store.Repr)
        invariant forall j :: n <= j < |states| ==> states[j].Value() == values[j] && Apart(store, states[j])
        invariant main == Listing(next, values[n..], n > 0)
        invariant Performs(settings, old(Whole()), trace, Whole())
        invariant cut ==> next == K.ResetNext && !raised && n > 0 && pauses(n - 1).stop
        invariant raised ==> n > 0 && pauses(n - 1).delivery == OtherError
        invariant Own(trace) == Times(n, next)
        invariant publisher.client.Some? ==> HandedAll(old(publisher.handed), publisher.handed, values[..n], pauses)
        invariant GrewByTables(old(publisher.handed), publisher.handed)
        invariant old(cookTasks) == map[] ==> cookTasks == map[] && store.Model() == old(store.Model())
      {
        ghost var reached, handed := Whole(), publisher.handed;
        ghost var more;
        raised, more := PublishNext(states[n], values[n..], n > 0, next, pauses(n));
        PerformsThen(settings, old(Whole()), trace, reached, more, Whole());
        OwnThen(trace, more);
        TimesGrow(n, next);
        HandedNext(old(publisher.handed), handed, publisher.handed, values, n, pauses, publisher.client.Some?);
        trace := trace + more;
        cut := next == K.ResetNext && pauses(n).stop;
        raised := raised && !cut;
        n := n + 1;
      }
    }

    /** List every table, empty or not, and publish what was listed. */
    method PublishTables(pauses: nat -> Pause) returns (ghost n: nat, raised: bool, ghost trace: seq<Moment>)
      requires Valid() && main.Subscribing? && forall i :: ByCooks(pauses(i).moments)
      modifies this`now, this`cookTasks, this`ledger, this`main, store.Repr, publisher`handed
      ensures Valid() && store.Repr == old(store.Repr)
      ensures Performs(settings, old(Whole()), trace, Whole())
      ensures n <= |store.tables| && Own(trace) == [K.AnnounceStart] + Times(n, K.AnnounceNext)
      ensures if raised then n > 0 && pauses(n - 1).delivery == OtherError
              else n == |store.tables| && main.Announcing? && main.todo == []
      ensures GrewByTables(old(publisher.handed), publisher.handed)
      ensures !raised && publisher.client.Some? ==>
                HandedAll(old(publisher.handed), publisher.handed, M.AllSnapshots(old(store.Model()), old(now)), pauses)
    {
      hide Performs, InMemoryStore.Valid, InMemoryStore.Model, Step, Own, Values, M.AllSnapshots, Times, K.Enabled,
           TableSnapshot.Value, GrewByTables, HandedAll;
      BeginAnnounce(settings, Whole());
      store.TablesOfModel();
      ListsEveryTable(store.Model(), now);
      ghost var values := M.AllSnapshots(store.Model(), now);
      main := K.Announcing(values, false);
      var states := store.AllSnapshots(now);
      ghost var begun := Whole();
      ghost var cut, more;
      n, raised, cut, more := PublishAll(states, values, K.AnnounceNext, pauses);
      PerformsThen(settings, old(Whole()), [Moment(K.AnnounceStart, Taken)], begun, more, Whole());
      OwnThen([Moment(K.AnnounceStart, Taken)], more);
      trace := [Moment(K.AnnounceStart, Taken)] + more;
      assert !raised ==> values[..n] == values;
    }

    /** Publish every table, and then the status. An exception that is not the broker's ends it
        early, and the process with it. */
    method AnnounceOnline(pauses: nat -> Pause, last: Pause) returns (raised: bool, ghost trace: seq<Moment>)
      requires Valid() && main.Subscribing?
      requires ByCooks(last.moments) && forall i :: ByCooks(pauses(i).moments)
      modifies this`now, this`cookTasks, this`ledger, this`main, store.Repr, publisher`handed
      ensures Valid() && store.Repr == old(store.Repr)
      ensures Performs(settings, old(Whole()), trace, Whole())
      ensures !raised ==> Own(trace) == Announcement(|store.tables|) && main.Idle?
      ensures raised ==> Own(trace) <= Announcement(|store.tables|)
      ensures raised ==> last.delivery == OtherError || exists i :: pauses(i).delivery == OtherError
      ensures !raised && publisher.client.Some? && last.delivery == Taken ==>
                var listed := M.AllSnapshots(old(store.Model()), old(now));
                SaidOnline(old(publisher.handed), publisher.handed, listed, pauses)
      ensures raised || last.delivery != Taken || publisher.client.None? ==>
                GrewByTables(old(publisher.handed), publisher.handed)
    {
      hide Performs, InMemoryStore.Valid, InMemoryStore.Model, Own, M.AllSnapshots, Times, GrewByTables, HandedAll,
           SaidOnline;
      ghost var before, values := publisher.handed, M.AllSnapshots(store.Model(), now);
      ghost var n;
      n, raised, trace := PublishTables(pauses);
      if raised {
        TimesPrefix(n, |store.tables|, K.AnnounceNext);
        return;
      }
      ghost var listed, told := Whole(), publisher.handed;
      ghost var ending;
      raised, ending := PublishOnline(last);
      PerformsThen(settings, old(Whole()), trace, listed, ending, Whole());
      OwnThen(trace, ending);
      trace := trace + ending;
      OnlineLast(before, told, publisher.handed, values, pauses, publisher.client.Some?,
                 publisher.client.Some? && last.delivery == Taken);
    }

    method PublishOnline(pause: Pause) returns (raised: bool, ghost trace: seq<Moment>)
      requires Valid() && main.Announcing? && main.todo == [] && ByCooks(pause.moments)
      modifies this`now, this`cookTasks, this`ledger, this`main, store.Repr, publisher`handed
      ensures Valid() && store.Repr == old(store.Repr) && main.Idle?
      ensures Performs(settings, old(Whole()), trace, Whole()) && Own(trace) == [K.AnnounceDone]
      ensures raised <==> publisher.client.Some? && pause.delivery == OtherError
      ensures var taken := if publisher.client.Some? && pause.delivery == Taken then [StatusMessage(true)] else [];
              GrewByTables(old(publisher.handed) + taken, publisher.handed)
    {
      hide Performs, InMemoryStore.Valid, InMemoryStore.Model, Own, GrewByTables, Scheduled;
      ghost var m := Moment(K.AnnounceDone, pause.delivery);
      PerformsNothing(settings, Whole());
      PerformsMore(settings, Whole(), [], Whole(), m);
      raised := publisher.Publish(StatusMessage(true), pause.delivery);
      main := K.Idle;
      ghost var published := Whole();
      ghost var waited := Await(pause.moments);
      PerformsWait(settings, old(Whole()), [] + [m], published, waited, Whole());
      trace := [m] + waited;
      assert [] + [m] == [m];
    }

    // --- reset and shutdown -------------------------------------------------------------------

    /** Cancel every cook, and wait until each has unwound, unless the stop signal cuts the wait
        short. No dish is served from the first cancellation on. */
    method CancelAllCooking(begin: K.Action, moments: seq<Moment>, stop: bool)
        returns (cut: bool, ghost trace: seq<Moment>)
      requires Valid() && ByCooks(moments)
      requires begin == K.ResetBegin || (begin == K.Stop && !stop)
      requires K.Enabled(settings, View(), begin)
      modifies this`now, this`cookTasks, this`ledger, this`main, store.Repr, publisher`handed
      ensures Valid() && store.Repr == old(store.Repr)
      ensures Performs(settings, old(Whole()), trace, Whole()) && Own(trace) == [begin]
      ensures trace != [] && trace[0].action == begin && OnlyUnwinds(trace[1..])
      ensures store.Model() == old(store.Model())
      ensures AllCancelled(cookTasks) && (!cut ==> cookTasks == map[]) && (cut ==> stop)
      ensures main == if begin.Stop? then K.Stopping else K.Cancelling
    {
      hide Performs, InMemoryStore.Valid, InMemoryStore.Model, Own;
      BeginCancel(settings, Whole(), begin);
      ghost var before := Whole();
      var tasks := cookTasks;
      cookTasks := map i | i in cookTasks :: cookTasks[i].(phase := K.Cancelled);
      main := if begin.Stop? then K.Stopping else K.Cancelling;
      ghost var begun := Whole();
      ghost var unwound;
      cut, unwound := false, [];
      PerformsNothing(settings, begun);
      if tasks != map[] {
        cut, unwound := Unwind(moments, stop);
      }
      trace := [Moment(begin, Taken)] + unwound;
      PerformsWait(settings, before, [Moment(begin, Taken)], begun, unwound, Whole());
      assert trace[1..] == unwound;
    }

    /** Give the cancelled tasks time to unwind: all they need, or until the stop signal. */
    method Unwind(moments: seq<Moment>, stop: bool) returns (cut: bool, ghost trace: seq<Moment>)
      requires Valid() && AllCancelled(cookTasks) && ByCooks(moments) && K.AtAwait(main)
      modifies this`now, this`cookTasks, this`ledger, store.Repr, publisher`handed
      ensures Valid() && store.Repr == old(store.Repr) && store.Model() == old(store.Model())
      ensures AllCancelled(cookTasks) && (!cut ==> cookTasks == map[]) && (cut ==> stop)
      ensures ByCooks(trace) && OnlyUnwinds(trace) && Performs(settings, old(Whole()), trace, Whole())
    {
      hide Performs, InMemoryStore.Valid, InMemoryStore.Model;
      trace := Await(moments);
      cut := stop;
      if !stop {
        ghost var waited := Whole();
        ghost var more := Gather();
        PerformsThen(settings, old(Whole()), trace, waited, more, Whole());
        trace := trace + more;
      }
    }

    /** Wait for cancelled tasks to unwind. */
    method Gather() returns (ghost trace: seq<Moment>)
      requires Valid() && AllCancelled(cookTasks) && K.AtAwait(main)
      modifies this`now, this`cookTasks, this`ledger, store.Repr, publisher`handed
      ensures Valid() && store.Repr == old(store.Repr) && store.Model() == old(store.Model()) && cookTasks == map[]
      ensures ByCooks(trace) && OnlyUnwinds(trace) && Performs(settings, old(Whole()), trace, Whole())
    {
      hide Performs, InMemoryStore.Valid, InMemoryStore.Model, Own, Step;
      trace := [];
      PerformsNothing(settings, Whole());
      while cookTasks != map[]
        invariant Valid() && store.Repr == old(store.Repr) && AllCancelled(cookTasks)
        invariant store.Model() == old(store.Model())
        invariant ByCooks(trace) && OnlyUnwinds(trace) && Performs(settings, old(Whole()), trace, Whole())
        decreases |cookTasks|
      {
        var i :| i in cookTasks;
        var m := Moment(K.TaskReap(i), Taken);
        PerformsMore(settings, old(Whole()), trace, Whole(), m);
        ReapStep(settings, Whole(), m);
        OtherTask(m);
        trace := trace + [m];
      }
    }

    /** The stretch of a reset that wipes the store and takes the snapshots to publish. */
    method Wipe() returns (states: seq<TableSnapshot>, ghost trace: seq<Moment>)
      requires Valid() && main.Cancelling? && cookTasks == map[]
      requires K.Enabled(settings, Whole().kitchen, K.ResetCommit)
      modifies this`main, this`orphans, this`ledger, this`keys, store, store.Repr
      ensures Valid() && store.Repr == old(store.Repr) && store.tables == old(store.tables)
      ensures Performs(settings, old(Whole()), trace, Whole()) && Own(trace) == [K.ResetCommit]
      ensures main.Resetting? && !main.begun && |main.todo| == |states| == |store.tables|
      ensures forall i :: 0 <= i < |states| ==> states[i].Value() == main.todo[i] && Apart(store, states[i])
      ensures main.todo == M.AllSnapshots(store.Model(), now)
      ensures WipedOut(old(store.Model()), store.Model()) && keys == [] && orphans == {}
    {
      hide Performs, InMemoryStore.Valid, InMemoryStore.Model, M.AllSnapshots, M.Reset, Values, Step, Own,
           TableSnapshot.Value, WipedOut;
      WipeStep(settings, Whole());
      ResetWipes(store.Model());
      PerformsOne(settings, Whole(), Moment(K.ResetCommit, Taken));
      trace := [Moment(K.ResetCommit, Taken)];
      store.ModelEpoch();
      store.Reset(store.epoch + 1);
      store.TablesOfModel();
      ListsEveryTable(store.Model(), now);
      orphans, ledger, keys := {}, map t | t in ledger :: [], [];
      main := K.Resetting(M.AllSnapshots(store.Model(), now), false);
      states := store.AllSnapshots(now);
    }

    /** Wipe the store, then publish every emptied table. */
    method StartOver(pauses: nat -> Pause) returns (ghost n: nat, raised: bool, cut: bool, ghost trace: seq<Moment>)
      requires Valid() && main.Cancelling? && cookTasks == map[]
      requires K.Enabled(settings, Whole().kitchen, K.ResetCommit)
      requires forall i :: ByCooks(pauses(i).moments)
      modifies this, store, store.Repr, publisher`handed
      ensures Valid() && store.Repr == old(store.Repr) && store.tables == old(store.tables)
      ensures Performs(settings, old(Whole()), trace, Whole())
      ensures n <= |store.tables| && Own(trace) == [K.ResetCommit] + Times(n, K.ResetNext)
      ensures main.Resetting? && (!raised && !cut ==> n == |store.tables| && main.todo == [])
      ensures raised || cut ==> main.begun
      ensures cut ==> exists i :: pauses(i).stop
      ensures WipedOut(old(store.Model()), store.Model()) && keys == [] && orphans == {} && cookTasks == map[]
      ensures nextOrder == old(nextOrder)
      ensures !raised && !cut && publisher.client.Some? && AllTaken(pauses) ==>
                ShownEmpty(old(publisher.handed), publisher.handed, store.Model())
    {
      hide Performs, InMemoryStore.Valid, InMemoryStore.Model, Own, Step, Times, View, Whole, K.Enabled, GrewByTables,
           HandedAll, ShownEmpty, AllTaken, WipedOut, M.AllSnapshots;
      var states;
      states, trace := Wipe();
      ghost var wiped, more, values := Whole(), [], main.todo;
      ghost var at, before := now, old(store.Model());
      var published;
      published, raised, cut, more := PublishAll(states, main.todo, K.ResetNext, pauses);
      n := published;
      PerformsThen(settings, old(Whole()), trace, wiped, more, Whole());
      OwnThen(trace, more);
      trace := trace + more;
      if !raised && !cut && publisher.client.Some? && AllTaken(pauses) {
        assert values[..n] == values;
        EmptiedShown(old(publisher.handed), publisher.handed, before, store.Model(), at, pauses);
      }
    }

    /** Cancel everything, wipe the store and publish the empty tables. The stop signal can end
        this while the cooks unwind, or at the publish of any table. */
    method HandleReset(pause: Pause, pauses: nat -> Pause)
        returns (ghost n: nat, ghost raised: bool, cut: bool, ghost trace: seq<Moment>)
      requires Valid() && main.Idle?
      requires ByCooks(pause.moments) && forall i :: ByCooks(pauses(i).moments)
      modifies this, store, store.Repr, publisher`handed
      ensures Valid() && store.Repr == old(store.Repr) && store.tables == old(store.tables)
      ensures Performs(settings, old(Whole()), trace, Whole())
      ensures n <= |store.tables| && (!raised && !cut ==> n == |store.tables|)
      ensures if cut then settings.enableReset && (main.Cancelling? || main.Resetting?) else main.Idle?
      ensures K.AtAwait(main)
      ensures Own(trace) == if !settings.enableReset then []
                            else if !cut then ResetRun(n, raised)
                            else if main.Cancelling? then [K.ResetBegin]
                            else [K.ResetBegin, K.ResetCommit] + Times(n, K.ResetNext)
      ensures ResetSettled(settings, old(View()), View(), cut)
      ensures cut ==> pause.stop || exists i :: pauses(i).stop
      ensures settings.enableReset && !raised && !cut && publisher.client.Some? && AllTaken(pauses) ==>
                ShownEmpty(old(publisher.handed), publisher.handed, store.Model())
    {
      hide Performs, InMemoryStore.Valid, InMemoryStore.Model, Own, Step, Times, K.Enabled, GrewByTables, ShownEmpty,
           WipedOut, AllTaken;
      n, raised, cut, trace := |store.tables|, false, false, [];
      PerformsNothing(settings, Whole());
      if !settings.enableReset {
        return;
      }
      CanReset(settings, View());
      cut, trace := CancelAllCooking(K.ResetBegin, pause.moments, pause.stop);
      if cut {
        return;
      }
      CanReset(settings, View());
      ghost var cancelled, told := Whole(), publisher.handed;
      PerformsHands(settings, old(Whole()), trace, cancelled);
      ghost var more;
      var failed;
      n, failed, cut, more := StartOver(pauses);
      raised := failed;
      ShownSince(old(publisher.handed), told, publisher.handed, store.Model());
      PerformsThen(settings, old(Whole()), trace, cancelled, more, Whole());
      OwnThen(trace, more);
      trace := trace + more;
      if !cut {
        ghost var published := Whole();
        ghost var ending := LeaveReset(failed);
        PerformsThen(settings, old(Whole()), trace, published, ending, Whole());
        OwnThen(trace, ending);
        trace := trace + ending;
      }
    }

    /** The reset is over, or has raised. */
    method LeaveReset(failed: bool) returns (ghost trace: seq<Moment>)
      requires Valid() && main.Resetting? && if failed then main.begun else main.todo == []
      modifies this`main
      ensures Valid() && main.Idle?
      ensures Performs(settings, old(Whole()), trace, Whole())
      ensures Own(trace) == [if failed then K.ResetRaise else K.ResetDone]
    {
      hide Performs, Step, InMemoryStore.Valid, InMemoryStore.Model, Own, K.Enabled;
      ghost var m := Moment(if failed then K.ResetRaise else K.ResetDone, Taken);
      EndReset(settings, Whole(), m);
      PerformsNothing(settings, Whole());
      PerformsMore(settings, Whole(), [], Whole(), m);
      trace := [] + [m];
      main := K.Idle;
    }

    /** Cancel the cooks, then say goodbye: the last message there is. */
    method Shutdown(moments: seq<Moment>, delivery: Delivery) returns (ghost last: World, ghost trace: seq<Moment>)
      requires Valid() && K.Consuming(main) && K.AtAwait(main) && ByCooks(moments)
      modifies this`now, this`cookTasks, this`ledger, this`main, store.Repr, publisher`handed
      ensures Valid() && store.Repr == old(store.Repr) && main.Stopping? && cookTasks == map[]
      ensures Performs(settings, old(Whole()), trace, last) && Own(trace) == [K.Stop]
      ensures Whole() == Took(last, delivery, [StatusMessage(false)])
    {
      hide Performs, InMemoryStore.Valid, InMemoryStore.Model, Own;
      var cut;
      cut, trace := CancelAllCooking(K.Stop, moments, false);
      last := Whole();
      var _ := publisher.Publish(StatusMessage(false), delivery);
    }

    /** Whatever arrives on whatever topic, handling it ends with the consumer ready for more,
        unless the stop signal cuts it off at an await. */
    method HandleMessage(topic: string, payload: Payload, delay: int, pause: Pause, pauses: nat -> Pause)
        returns (ghost first: World, cut: bool, ghost trace: seq<Moment>)
      requires Valid() && main.Idle?
      requires ByCooks(pause.moments) && forall i :: ByCooks(pauses(i).moments)
      modifies this, store, store.Repr, publisher`handed
      ensures Valid() && fresh(store.Repr - old(store.Repr)) && store.tables == old(store.tables)
      ensures K.Consuming(main) && K.AtAwait(main) && (!cut ==> main.Idle?)
      ensures Performs(settings, first, trace, Whole())
      ensures var inbound := ParseOrder(payload, validate);
              var order := topic != Topics.KITCHEN_RESET && Topics.ParseTableId(python, topic).OrderFor?;
              first == if order && inbound.Unusable? then Took(old(Whole()), pause.delivery, AnswerTo(inbound))
                       else old(Whole())
      ensures Handled(settings, old(Whole()), python, topic, ParseOrder(payload, validate), delay, pause.delivery,
                      |store.tables|, cut, Own(trace))
      ensures var inbound := ParseOrder(payload, validate);
              var failed := publisher.client.Some? && pause.delivery == OtherError;
              MessageSettled(settings, old(View()), View(), python, topic, inbound, delay, failed, cut)
      ensures cut ==> pause.stop || exists i :: pauses(i).stop
      ensures IsOrder(python, topic, ParseOrder(payload, validate)) ==>
                && trace != [] && trace[0].action.Receive? && trace[0].delivery == pause.delivery
    {
      hide Performs, InMemoryStore.Valid, InMemoryStore.Model, Own, K.TryAccept, Topics.ParseTableId, OrderRun,
           ResetRun, ParseOrder, ResetSettled, OrderSettled, ShownEmpty, AllTaken;
      first := Whole();
      if topic == Topics.KITCHEN_RESET {
        ghost var n, raised;
        n, raised, cut, trace := HandleReset(pause, pauses);
        if cut {
          CutReset(n, Own(trace));
        }
        return;
      }
      var parsed := Topics.ParseTableId(python, topic);
      if !parsed.OrderFor? {
        // dropped, or raised and dropped by the handler around all this
        cut, trace := false, [];
        PerformsNothing(settings, Whole());
      } else {
        var inbound := ParseOrder(payload, validate);
        if inbound.Unusable? {
          first := Took(Whole(), pause.delivery, AnswerTo(inbound));
          cut, trace := RejectUnusable(inbound.clientId, inbound.clientOrderId, pause);
          OwnNothing(trace);
        } else {
          cut, trace := HandleOrder(parsed.tableId, inbound.cmd, delay, pause);
        }
      }
    }
  }

  /** What becomes of an order, in the kitchen it leaves behind. One that passes the checks has a
      cook, just spawned, with the identifier and the time drawn for it, unless its publish
      raised; then it is an orphan. One whose handling the stop signal cut off is still in hand.
      One that does not pass the checks leaves no trace. */
  ghost predicate OrderSettled(settings: Settings, k: K.Kitchen, k': K.Kitchen, topicTable: TableId, cmd: OrderPlaced,
                               delay: int, failed: bool, cut: bool)
  {
    if !K.Admits(settings, k.store, cmd, topicTable) then
      && k'.keys == k.keys && k'.nextOrder == k.nextOrder
      && k'.orphans == k.orphans && k'.tasks.Keys <= k.tasks.Keys
    else
      && k'.keys == k.keys + [cmd.clientOrderId] && k'.nextOrder == k.nextOrder + 1
      && if cut then
           && k'.orphans == k.orphans && k'.tasks.Keys <= k.tasks.Keys
           && k'.main.Accepting? && k'.main.tableId == topicTable && k'.main.order.orderId == k.nextOrder
         else if failed then
           && k'.orphans == k.orphans + {k.nextOrder} && k'.tasks.Keys <= k.tasks.Keys
         else
           && k'.orphans == k.orphans && k.nextTask in k'.tasks
           && k'.tasks[k.nextTask] == K.CookTask(topicTable, k.nextOrder, if delay > 0 then delay else 0, K.Spawned)
  }

  /** The store of a new generation: every table empty, at version 0, and no key remembered. */
  ghost predicate WipedOut(before: M.Store, after: M.Store) {
    && after.epoch == before.epoch + 1 && after.seen == []
    && after.tables.Keys == before.tables.Keys
    && forall t :: t in after.tables ==> after.tables[t] == M.TableRecord(0, [])
  }

  predicate Shows(m: Message, t: TableId, epoch: Epoch) {
    && m.TableMessage? && m.state.tableId == t && m.state.epoch == epoch
    && m.state.version == 0 && m.state.orders == []
  }

  /** Every table has been shown empty, in this generation, since. */
  ghost predicate ShownEmpty(before: seq<Message>, after: seq<Message>, s: M.Store) {
    before <= after && forall t :: t in s.tables ==> exists m :: m in after[|before|..] && Shows(m, t, s.epoch)
  }

  ghost predicate AllTaken(pauses: nat -> Pause) {
    forall i :: pauses(i).delivery == Taken
  }

  lemma ResetWipes(s: M.Store)
    ensures WipedOut(s, M.Reset(s, s.epoch + 1))
  {
  }

  lemma EmptiedShown(before: seq<Message>, after: seq<Message>, wiped: M.Store, s: M.Store, at: Millis,
                     pauses: nat -> Pause)
    requires WipedOut(wiped, s) && AllTaken(pauses) && HandedAll(before, after, M.AllSnapshots(s, at), pauses)
    ensures ShownEmpty(before, after, s)
  {
    SnapshotOrder(s, at);
    var ids, values := M.SortedIds(s.tables.Keys), M.AllSnapshots(s, at);
    hide M.SortedIds, M.AllSnapshots;
    forall t | t in s.tables ensures exists m :: m in after[|before|..] && Shows(m, t, s.epoch) {
      var j :| 0 <= j < |ids| && ids[j] == t;
      assert pauses(j).delivery == Taken;
      assert Shows(TableMessage(values[j]), t, s.epoch);
    }
  }

  lemma ShownSince(a: seq<Message>, b: seq<Message>, c: seq<Message>, s: M.Store)
    requires a <= b
    ensures ShownEmpty(b, c, s) ==> ShownEmpty(a, c, s)
  {
    if ShownEmpty(b, c, s) {
      forall t | t in s.tables ensures exists m :: m in c[|a|..] && Shows(m, t, s.epoch) {
        var m :| m in c[|b|..] && Shows(m, t, s.epoch);
        var x :| 0 <= x < |c| - |b| && c[|b|..][x] == m;
        assert c[|a|..][|b| - |a| + x] == m;
      }
    }
  }

  lemma {:induction false} PerformsHands(settings: Settings, w: World, trace: seq<Moment>, w': World)
    requires Performs(settings, w, trace, w')
    ensures w.handed <= w'.handed
    decreases |trace|
  {
    hide K.Enabled, K.Next, Outgoing;
    if trace == [] {
    } else {
      PerformsHands(settings, Step(settings, w, trace[0]), trace[1..], w');
    }
  }

  /** What becomes of a reset. Nothing, where it is disabled. One that is not cut off leaves a
      store wiped out, no key, no orphan and no cook; one cut off while the cooks unwind has
      not touched the store. */
  ghost predicate ResetSettled(settings: Settings, k: K.Kitchen, k': K.Kitchen, cut: bool) {
    if !settings.enableReset then k' == k
    else if cut && k'.main.Cancelling? then k'.store == k.store && k'.keys == k.keys
    else
      && WipedOut(k.store, k'.store) && k'.keys == [] && k'.orphans == {} && k'.tasks == map[]
      && k'.nextOrder == k.nextOrder
  }

  /** The message is an order: on a topic that parses, with a payload that does. */
  predicate IsOrder(python: Topics.Python, topic: string, inbound: Inbound) {
    topic != Topics.KITCHEN_RESET && Topics.ParseTableId(python, topic).OrderFor? && inbound.Usable?
  }

  /** What becomes of a message: a reset on the reset topic; an order where the topic gives a
      table; on any other topic, nothing. An unusable payload has no effect on the orders. */
  ghost predicate MessageSettled(settings: Settings, k: K.Kitchen, k': K.Kitchen, python: Topics.Python, topic: string,
                                 inbound: Inbound, delay: int, failed: bool, cut: bool)
  {
    if topic == Topics.KITCHEN_RESET then ResetSettled(settings, k, k', cut)
    else if IsOrder(python, topic, inbound) then
      OrderSettled(settings, k, k', Topics.ParseTableId(python, topic).tableId, inbound.cmd, delay, failed, cut)
    else if !Topics.ParseTableId(python, topic).OrderFor? then k' == k
    else k'.keys == k.keys && k'.nextOrder == k.nextOrder && k'.orphans == k.orphans && k'.tasks.Keys <= k.tasks.Keys
  }

  /** What handling a message may do of its own: nothing, an order's run or a reset's, whole or,
      when cut, as far as its last await. */
  ghost predicate Handled(settings: Settings, w: World, python: Topics.Python, topic: string, inbound: Inbound,
                          delay: int, delivery: Delivery, tables: nat, cut: bool, own: seq<K.Action>)
  {
    if topic == Topics.KITCHEN_RESET then
      if !settings.enableReset then own == []
      else exists n, raised :: 0 <= n <= tables
             && if cut then own != [] && own < ResetRun(n, raised) else own == ResetRun(n, raised)
    else
      match Topics.ParseTableId(python, topic)
      case NotAnOrder => own == []
      case Raises => own == []
      case OrderFor(t) =>
        if inbound.Unusable? then own == []
        else if cut then own == [K.Receive(t, inbound.cmd, delay)]
        else own == OrderRun(w, settings, t, inbound.cmd, delay, delivery)
  }

  lemma CutReset(n: nat, own: seq<K.Action>)
    requires own == [K.ResetBegin] || own == [K.ResetBegin, K.ResetCommit] + Times(n, K.ResetNext)
    ensures own != [] && own < ResetRun(n, false)
  {
  }

  /** The rejection an unusable payload is answered with, if it named its author. */
  function AnswerTo(inbound: Inbound): seq<Message>
    requires inbound.Unusable?
  {
    if inbound.clientId.None? then []
    else [RejectionMessage(Rejection(inbound.clientId, inbound.clientOrderId, None, ValidationFailed))]
  }

  function Listing(next: K.Action, todo: seq<TableState>, begun: bool): K.Main {
    if next == K.AnnounceNext then K.Announcing(todo, begun) else K.Resetting(todo, begun)
  }

  function Times(n: nat, a: K.Action): seq<K.Action> {
    seq(n, _ => a)
  }

  /** An announce, step by step, for a restaurant of `n` tables. */
  function Announcement(n: nat): seq<K.Action> {
    [K.AnnounceStart] + Times(n, K.AnnounceNext) + [K.AnnounceDone]
  }

  /** An order's handling, step by step: refused or ignored at once, or followed by the spawning
      of its cook unless publishing raises something other than a broker error. */
  function OrderRun(w: World, settings: Settings, topicTable: TableId, cmd: OrderPlaced, delay: int, delivery: Delivery)
      : seq<K.Action>
  {
    var k := w.kitchen;
    [K.Receive(topicTable, cmd, delay)]
    + (if !K.TryAccept(settings, k.store, cmd, topicTable, k.nextOrder, delay, k.now).Accepted? then []
       else if w.attached && delivery == OtherError then [K.AcceptRaise]
       else [K.SpawnCook])
  }

  /** A reset, step by step, when `n` of the emptied tables get published. */
  function ResetRun(n: nat, raised: bool): seq<K.Action> {
    [K.ResetBegin, K.ResetCommit] + Times(n, K.ResetNext) + [if raised then K.ResetRaise else K.ResetDone]
  }

  /** The kitchen right after an order's arrival. */
  lemma ReceiveLeaves(
      settings: Settings, w: World, topicTable: TableId, cmd: OrderPlaced, delay: int, delivery: Delivery)
    requires w.kitchen.main.Idle?
    ensures var k := w.kitchen;
            Received(settings, k, Step(settings, w, Moment(K.Receive(topicTable, cmd, delay), delivery)).kitchen,
                     topicTable, cmd, delay)
  {
    hide M.TotalCooking, M.CookingCount, M.AddOrder, M.Remember, Outgoing;
  }

  ghost predicate Received(settings: Settings, k: K.Kitchen, k': K.Kitchen, topicTable: TableId, cmd: OrderPlaced,
                           delay: int)
  {
    && k'.tasks == k.tasks && k'.orphans == k.orphans && k'.nextTask == k.nextTask
    && if K.Admits(settings, k.store, cmd, topicTable) then
         && k'.keys == k.keys + [cmd.clientOrderId] && k'.nextOrder == k.nextOrder + 1
         && k'.main.Accepting? && k'.main.tableId == topicTable && k'.main.order.orderId == k.nextOrder
         && k'.main.order.cookSeconds == if delay > 0 then delay else 0
       else k' == k
  }

  /** And once it has been handled. */
  lemma Settles(settings: Settings, k: K.Kitchen, received: K.Kitchen, k': K.Kitchen, topicTable: TableId,
                cmd: OrderPlaced, delay: int, failed: bool, cut: bool)
    requires Received(settings, k, received, topicTable, cmd, delay)
    requires k'.keys == received.keys && k'.nextOrder == received.nextOrder
    requires !received.main.Accepting? || cut ==>
               k'.tasks.Keys <= received.tasks.Keys && k'.orphans == received.orphans && k'.main == received.main
    requires received.main.Accepting? && !cut ==>
               var order := received.main.order;
               if failed then k'.tasks.Keys <= received.tasks.Keys && k'.orphans == received.orphans + {order.orderId}
               else
                 && k'.orphans == received.orphans && received.nextTask in k'.tasks
                 && k'.tasks[received.nextTask]
                    == K.CookTask(received.main.tableId, order.orderId, order.cookSeconds, K.Spawned)
    requires !k.main.Accepting?
    ensures OrderSettled(settings, k, k', topicTable, cmd, delay, failed, cut)
  {
    hide K.Admits;
  }

  lemma WakeEither(k: K.Kitchen, i: nat)
    requires i in k.tasks
    ensures var c := k.tasks[i];
            match M.FinishOrder(k.store, c.tableId, c.orderId, Served, k.now)
            case None => K.AfterWake(k, i) == K.WithoutTask(k, i) && K.SentByFinish(k, i, Served) == None
            case Some(after) =>
              && K.AfterWake(k, i) == K.WithPhase(K.Finished(k, after, c.tableId, c.orderId, Served), i, K.Publishing)
              && K.SentByFinish(k, i, Served)
                 == if c.tableId in after.tables then Some(M.Snapshot(after, c.tableId, k.now)) else None
  {
    hide M.FinishOrder, M.Snapshot;
  }

  lemma CanReceive(settings: Settings, k: K.Kitchen, topicTable: TableId, cmd: OrderPlaced, delay: int)
    requires k.main.Idle?
    ensures K.Enabled(settings, k, K.Receive(topicTable, cmd, delay))
  {
  }

  lemma CanSpawn(settings: Settings, k: K.Kitchen)
    requires k.main.Accepting?
    ensures K.Enabled(settings, k, K.SpawnCook) && K.Enabled(settings, k, K.AcceptRaise)
  {
  }

  lemma CanReset(settings: Settings, k: K.Kitchen)
    ensures k.main.Idle? && settings.enableReset ==> K.Enabled(settings, k, K.ResetBegin)
    ensures k.main.Cancelling? && k.tasks == map[] ==> K.Enabled(settings, k, K.ResetCommit)
  {
  }

  lemma EndReset(settings: Settings, w: World, m: Moment)
    requires w.kitchen.main.Resetting?
    requires (m.action.ResetRaise? && w.kitchen.main.begun) || (m.action.ResetDone? && w.kitchen.main.todo == [])
    ensures K.Enabled(settings, w.kitchen, m.action)
    ensures Step(settings, w, m) == w.(kitchen := w.kitchen.(main := K.Idle))
  {
  }

  lemma TimesGrow(n: nat, a: K.Action)
    ensures Times(0, a) == [] && Times(n, a) + [a] == Times(n + 1, a)
  {
  }

  lemma TimesPrefix(m: nat, n: nat, a: K.Action)
    requires m <= n
    ensures Times(m, a) <= Times(n, a)
  {
  }

  lemma WipeStep(settings: Settings, w: World)
    requires w.kitchen.main.Cancelling? && w.kitchen.tasks == map[]
    ensures var k := w.kitchen;
            var store := M.Reset(k.store, k.store.epoch + 1);
            Step(settings, w, Moment(K.ResetCommit, Taken)) ==
            w.(kitchen := k.(store := store, main := K.Resetting(M.AllSnapshots(store, k.now), false), orphans := {},
                             ledger := map t | t in k.ledger :: [], keys := []))
  {
    hide M.AllSnapshots, M.Reset;
    assert w.handed + [] == w.handed;
  }

  lemma ListsEveryTable(s: M.Store, now: Millis)
    ensures |M.AllSnapshots(s, now)| == |s.tables.Keys|
  {
    M.SortedSize(s.tables.Keys);
  }

  lemma BeginAnnounce(settings: Settings, w: World)
    requires w.kitchen.main.Subscribing?
    ensures var k := w.kitchen;
            var m := Moment(K.AnnounceStart, Taken);
            var listed := k.(main := K.Announcing(M.AllSnapshots(k.store, k.now), false));
            && Performs(settings, w, [m], w.(kitchen := listed))
            && Own([m]) == [K.AnnounceStart]
  {
    hide M.AllSnapshots;
    PerformsOne(settings, w, Moment(K.AnnounceStart, Taken));
  }

  function Took(w: World, delivery: Delivery, messages: seq<Message>): World {
    w.(handed := w.handed + if w.attached && delivery == Taken then messages else [])
  }

  /** The effect of an arriving order, verdict by verdict. */
  lemma ReceiveStep(settings: Settings, w: World, topicTable: TableId, cmd: OrderPlaced, delay: int, delivery: Delivery)
    requires w.kitchen.main.Idle?
    ensures var k := w.kitchen;
            var w' := Step(settings, w, Moment(K.Receive(topicTable, cmd, delay), delivery));
            match K.TryAccept(settings, k.store, cmd, topicTable, k.nextOrder, delay, k.now)
            case Rejected(reason) => w' == Took(w, delivery, [RejectionMessage(RefusalOf(cmd, topicTable, reason))])
            case Duplicate => w' == w
            case Accepted(order, store) =>
              && cmd.tableId in store.tables && cmd.tableId == topicTable
              && w' == Took(w.(kitchen := K.Commit(k, cmd, order, store)), delivery,
                            [TableMessage(M.Snapshot(store, cmd.tableId, k.now))])
  {
    hide M.Remember, M.Snapshot, M.TotalCooking, M.CookingCount;
  }

  lemma AfterAccepting(settings: Settings, w: World, raised: bool)
    requires w.kitchen.main.Accepting?
    ensures var k := w.kitchen;
            var c := K.CookTask(k.main.tableId, k.main.order.orderId, k.main.order.cookSeconds, K.Spawned);
            Step(settings, w, Moment(if raised then K.AcceptRaise else K.SpawnCook, Taken)) ==
            w.(kitchen := if raised
                          then k.(main := K.Idle, orphans := k.orphans + {k.main.order.orderId})
                          else k.(main := K.Idle, tasks := k.tasks[k.nextTask := c], nextTask := k.nextTask + 1))
  {
  }

  lemma NextStep(settings: Settings, w: World, m: Moment)
    requires m.action == K.AnnounceNext || m.action == K.ResetNext
    requires K.Todo(w.kitchen) != []
    requires if m.action == K.AnnounceNext then w.kitchen.main.Announcing? else w.kitchen.main.Resetting?
    ensures K.Enabled(settings, w.kitchen, m.action)
    ensures var todo := K.Todo(w.kitchen);
            var k := w.kitchen.(main := Listing(m.action, todo[1..], true));
            Step(settings, w, m) == Took(w.(kitchen := k), m.delivery, [TableMessage(todo[0])])
  {
  }

  /** Every one of the snapshots whose publish was taken has been handed over since. */
  ghost predicate HandedAll(before: seq<Message>, after: seq<Message>, values: seq<TableState>, pauses: nat -> Pause) {
    before <= after
    && forall j :: 0 <= j < |values| && pauses(j).delivery == Taken ==> TableMessage(values[j]) in after[|before|..]
  }

  lemma HandedNone(handed: seq<Message>, pauses: nat -> Pause)
    ensures HandedAll(handed, handed, [], pauses)
  {
  }

  /** One more snapshot published, and some by the cooks. */
  lemma HandedNext(before: seq<Message>, handed: seq<Message>, after: seq<Message>, values: seq<TableState>, n: nat,
                   pauses: nat -> Pause, live: bool)
    requires n < |values| && GrewByTables(before, handed)
    requires live ==> HandedAll(before, handed, values[..n], pauses)
    requires var taken := if live && pauses(n).delivery == Taken then [TableMessage(values[n])] else [];
             GrewByTables(handed + taken, after)
    ensures GrewByTables(before, after)
    ensures live ==> HandedAll(before, after, values[..n + 1], pauses)
  {
    var taken := if live && pauses(n).delivery == Taken then [TableMessage(values[n])] else [];
    assert GrewByTables(before, handed + taken);
    GrewMore(before, handed + taken, after);
    if live {
      forall j | 0 <= j < n + 1 && pauses(j).delivery == Taken
        ensures TableMessage(values[..n + 1][j]) in after[|before|..]
      {
        if j < n {
          assert values[..n][j] == values[j];
          var x :| 0 <= x < |handed| - |before| && handed[|before|..][x] == TableMessage(values[j]);
          assert after[|before|..][x] == TableMessage(values[j]);
        } else {
          assert after[|handed|] == TableMessage(values[n]);
          assert after[|before|..][|handed| - |before|] == TableMessage(values[n]);
        }
      }
    }
  }

  /** An announce whose last publish is taken has told the client that the kitchen is online, once
      and after every snapshot of its own that was taken, and of nothing else but tables. */
  ghost predicate SaidOnline(before: seq<Message>, after: seq<Message>, values: seq<TableState>, pauses: nat -> Pause) {
    exists i :: |before| <= i < |after| && after[i] == StatusMessage(true)
      && HandedAll(before, after[..i], values, pauses)
      && GrewByTables(before, after[..i]) && GrewByTables(after[..i + 1], after)
  }

  lemma OnlineLast(before: seq<Message>, listed: seq<Message>, after: seq<Message>, values: seq<TableState>,
                   pauses: nat -> Pause, live: bool, taken: bool)
    requires GrewByTables(before, listed) && (taken ==> live)
    requires live ==> HandedAll(before, listed, values, pauses)
    requires GrewByTables(listed + (if taken then [StatusMessage(true)] else []), after)
    ensures if taken then SaidOnline(before, after, values, pauses) else GrewByTables(before, after)
  {
    hide HandedAll;
    if taken {
      var i := |listed|;
      assert after[i] == StatusMessage(true) && after[..i] == listed;
      assert after[..i + 1] == listed + [StatusMessage(true)];
    } else {
      assert listed + [] == listed;
      GrewMore(before, listed, after);
    }
  }

  lemma NothingGrew(handed: seq<Message>)
    ensures GrewByTables(handed, handed)
  {
  }

  lemma GrewMore(a: seq<Message>, b: seq<Message>, c: seq<Message>)
    requires GrewByTables(a, b) && GrewByTables(b, c)
    ensures GrewByTables(a, c)
  {
    forall i | |a| <= i < |c| ensures c[i].TableMessage? {
      if i < |b| {
        assert c[i] == b[i];
      }
    }
  }

  lemma ScheduledNothing(settings: Settings, w: World, moments: seq<Moment>)
    requires moments == []
    ensures Scheduled(settings, w, moments) == []
  {
  }

  lemma PerformsNothing(settings: Settings, w: World)
    ensures Performs(settings, w, [], w) && Own([]) == []
  {
  }

  lemma ReapStep(settings: Settings, w: World, m: Moment)
    requires m.action.TaskReap? && K.Enabled(settings, w.kitchen, m.action)
    ensures Step(settings, w, m) == w.(kitchen := w.kitchen.(tasks := w.kitchen.tasks - {m.action.task}))
  {
    assert w.handed + [] == w.handed;
  }

  lemma BeginCancel(settings: Settings, w: World, begin: K.Action)
    requires (begin == K.ResetBegin || begin == K.Stop) && K.Enabled(settings, w.kitchen, begin)
    ensures var m := Moment(begin, Taken);
            var main := if begin.Stop? then K.Stopping else K.Cancelling;
            && Performs(settings, w, [m], w.(kitchen := K.CancelAll(w.kitchen).(main := main)))
            && Own([m]) == [begin]
  {
    assert w.handed + [] == w.handed;
    PerformsOne(settings, w, Moment(begin, Taken));
  }

  lemma CancelledStays(settings: Settings, w: World, m: Moment)
    requires ByCook(m.action) && K.Enabled(settings, w.kitchen, m.action)
    ensures Step(settings, w, m).kitchen.tasks.Keys <= w.kitchen.tasks.Keys
    ensures AllCancelled(w.kitchen.tasks) ==>
              && AllCancelled(Step(settings, w, m).kitchen.tasks)
              && Step(settings, w, m).kitchen.store == w.kitchen.store
              && (m.action.Tick? || m.action.TaskReap?)
  {
  }

  /** Whatever the coroutines do, in whatever interleaving, keeps the kitchen's invariant. */
  lemma {:induction false} PerformsKeeps(settings: Settings, w: World, trace: seq<Moment>, w': World)
    requires Performs(settings, w, trace, w') && Inv(settings, w.kitchen)
    ensures Inv(settings, w'.kitchen)
    decreases |trace|
  {
    hide Inv;
    if trace == [] {
    } else {
      StepKeeps(settings, w.kitchen, trace[0].action);
      PerformsKeeps(settings, Step(settings, w, trace[0]), trace[1..], w');
    }
  }
}
