/** What the kitchen promises of every dish, in every state of every run. */
module Safety {
  import opened Models
  import opened OrderLists
  import opened StoreModel
  import opened KitchenModel
  import opened KitchenInvariants
  import opened KitchenProofs
  import opened RestaurantSystem
  import opened Runs

  lemma KitchenSound(settings: Settings, states: seq<System>, events: seq<Event>, i: nat)
    requires IsRun(settings, states, events) && i < |states|
    ensures Inv(settings, states[i].kitchen)
  {
    RunSound(settings, states, events, i);
  }

  // --- bounds -------------------------------------------------------------------------------

  /** Whatever the interleaving, no limit is ever exceeded: cooking orders per table and in
      total, finished orders kept per table, and so all orders kept per table. */
  lemma NeverOverCapacity(settings: Settings, states: seq<System>, events: seq<Event>, i: nat, t: TableId)
    requires IsRun(settings, states, events) && i < |states| && t in settings.tables
    ensures var s := states[i].kitchen.store;
            && t in s.tables
            && CookingCount(s, t) <= settings.maxOrdersPerTable
            && TotalCooking(s) <= settings.maxOrdersGlobal
            && |FinishedOrders(s.tables[t].orders)| <= settings.maxServedHistory
            && |s.tables[t].orders| <= settings.maxOrdersPerTable + settings.maxServedHistory
  {
    KitchenSound(settings, states, events, i);
    var k := states[i].kitchen;
    TrimKeeps(k.ledger[t], settings.maxServedHistory);
    FilterSizes(k.store.tables[t].orders);
  }

  /** Trimming as the kitchen goes loses nothing but what it must: a table's record is the
      untrimmed history of its generation with only the oldest finished orders left out, and
      its version counts that history's accepts and finishes. */
  lemma RecordIsTrimmedHistory(settings: Settings, states: seq<System>, events: seq<Event>, i: nat, t: TableId)
    requires IsRun(settings, states, events) && i < |states| && t in settings.tables
    ensures var k := states[i].kitchen;
            && t in k.store.tables && t in k.ledger
            && var kept, full := k.store.tables[t].orders, k.ledger[t];
               && CookingOrders(kept) == CookingOrders(full)
               && FinishedOrders(kept) == LastN(FinishedOrders(full), settings.maxServedHistory)
               && Subsequence(kept, full)
               && |full| == |kept| + Excess(full, settings.maxServedHistory)
               && k.store.tables[t].version == |full| + |FinishedOrders(full)|
  {
    KitchenSound(settings, states, events, i);
    TrimKeeps(states[i].kitchen.ledger[t], settings.maxServedHistory);
  }

  /** The key is among the last `n` accepted. */
  ghost predicate Recent(keys: seq<string>, key: string, n: nat) {
    exists a :: 0 <= a < |keys| && |keys| - a <= n && keys[a] == key
  }

  /** Within a generation, a client key is accepted again only after at least N other accepted
      keys, and the kitchen calls a key a duplicate exactly while it is among the last N. */
  lemma KeysSpaced(settings: Settings, states: seq<System>, events: seq<Event>, i: nat, key: string)
    requires IsRun(settings, states, events) && i < |states|
    ensures var k := states[i].kitchen;
            && (forall a, b :: 0 <= a < b < |k.keys| && k.keys[a] == k.keys[b] ==>
                  b - a - 1 >= settings.dedupeCacheSize)
            && (key in k.store.seen <==> Recent(k.keys, key, settings.dedupeCacheSize))
  {
    KitchenSound(settings, states, events, i);
    SeenIsRecent(settings, states[i].kitchen, key);
  }

  /** The checks an order must pass, in terms of what happened before. */
  ghost predicate Welcome(settings: Settings, k: Kitchen, topicTable: TableId, cmd: OrderPlaced) {
    && cmd.tableId == topicTable
    && cmd.tableId in settings.tables
    && !Recent(k.keys, cmd.clientOrderId, settings.dedupeCacheSize)
    && TotalCooking(k.store) < settings.maxOrdersGlobal
    && CookingCount(k.store, cmd.tableId) < settings.maxOrdersPerTable
  }

  /** The order a command becomes. */
  ghost predicate Becomes(cmd: OrderPlaced, delay: int, now: Millis, o: Order) {
    && o.foodName == cmd.foodName && o.status == Cooking && o.placedAt == now && o.readyAt == None
    && o.cookSeconds >= delay && (o.cookSeconds == delay || o.cookSeconds == 0)
  }

  /** The command has become the last order in its table's history, and its key the last key. */
  ghost predicate TakesOn(k: Kitchen, k': Kitchen, t: TableId, cmd: OrderPlaced, delay: int) {
    && k'.keys == k.keys + [cmd.clientOrderId]
    && t in k.ledger && t in k'.ledger
    && exists o :: k'.ledger[t] == k.ledger[t] + [o] && Becomes(cmd, delay, k.now, o)
  }

  /** An arriving order is accepted exactly if it passes every check; then it is the last in
      its table's history and its key the last in the key history. Otherwise nothing changes. */
  lemma AcceptedExactly(settings: Settings, states: seq<System>, events: seq<Event>, i: nat)
    requires IsRun(settings, states, events) && i < |events|
    requires events[i].KitchenActs? && events[i].action.Receive?
    ensures var a := events[i].action;
            var k, k' := states[i].kitchen, states[i + 1].kitchen;
            if Welcome(settings, k, a.topicTable, a.cmd) then TakesOn(k, k', a.topicTable, a.cmd, a.delay) else k' == k
  {
    hide Inv, Next, Enabled, Recent, Welcome;
    KitchenSound(settings, states, events, i);
    assert Step(settings, states[i], events[i], states[i + 1]);
    SeenIsRecent(settings, states[i].kitchen, events[i].action.cmd.clientOrderId);
    ReceiveExactly(settings, states[i].kitchen, events[i].action);
  }

  lemma SeenIsRecent(settings: Settings, k: Kitchen, key: string)
    requires Inv(settings, k)
    ensures key in k.store.seen <==> Recent(k.keys, key, settings.dedupeCacheSize)
    ensures k.store.tables.Keys == k.ledger.Keys == settings.tables
  {
    hide LastN;
    InLastN(k.keys, key, settings.dedupeCacheSize);
  }

  lemma ReceiveExactly(settings: Settings, k: Kitchen, a: Action)
    requires a.Receive? && Enabled(settings, k, a)
    requires a.cmd.clientOrderId in k.store.seen <==> Recent(k.keys, a.cmd.clientOrderId, settings.dedupeCacheSize)
    requires k.store.tables.Keys == k.ledger.Keys == settings.tables
    ensures var k' := Next(settings, k, a);
            if Welcome(settings, k, a.topicTable, a.cmd) then TakesOn(k, k', a.topicTable, a.cmd, a.delay) else k' == k
  {
    hide Recent, TotalCooking, CookingCount, AddOrder, Remember;
    if Welcome(settings, k, a.topicTable, a.cmd) {
      var o := NewOrder(a.cmd, k.nextOrder, a.delay, k.now);
      assert Becomes(a.cmd, a.delay, k.now, o);
      assert Next(settings, k, a).ledger[a.topicTable] == k.ledger[a.topicTable] + [o];
    }
  }

  // --- tasks and dishes ---------------------------------------------------------------------

  /** A task that has not served yet cooks an order that is cooking in the store. */
  lemma TaskHasDish(settings: Settings, states: seq<System>, events: seq<Event>, i: nat, n: nat)
    requires IsRun(settings, states, events) && i < |states|
    requires n in states[i].kitchen.tasks && Unserved(states[i].kitchen.tasks[n])
    ensures var k := states[i].kitchen;
            var c := k.tasks[n];
            && c.tableId in k.store.tables
            && var found := Lookup(k.store.tables[c.tableId].orders, c.orderId);
               found.Some? && found.value.status == Cooking && found.value.cookSeconds == c.cookSeconds
  {
    KitchenSound(settings, states, events, i);
    var k := states[i].kitchen;
    var c := k.tasks[n];
    assert TaskMatches(k, c);
    DropKeepsCooking(k.ledger[c.tableId], c.orderId, Excess(k.ledger[c.tableId], settings.maxServedHistory));
  }

  /** No order whose acceptance raised: its cook was never spawned. */
  lemma {:induction false} NoOrphans(settings: Settings, states: seq<System>, events: seq<Event>, i: nat)
    requires IsRun(settings, states, events) && i < |states|
    requires forall n :: 0 <= n < i ==> !(events[n].KitchenActs? && events[n].action.AcceptRaise?)
    ensures states[i].kitchen.orphans == {}
  {
    if i == 0 {
    } else {
      NoOrphans(settings, states, events, i - 1);
      assert Step(settings, states[i - 1], events[i - 1], states[i]);
      OrphansOnlyByRaising(settings, states[i - 1], events[i - 1]);
    }
  }

  lemma OrphansOnlyByRaising(settings: Settings, s: System, e: Event)
    requires CanHappen(settings, s, e) && !(e.KitchenActs? && e.action.AcceptRaise?)
    ensures Happens(settings, s, e).kitchen.orphans <= s.kitchen.orphans
  {
    hide TryAccept, FinishOrder;
  }

  /** The task is still to serve this order. */
  predicate CooksFor(c: CookTask, o: Order) {
    Unserved(c) && c.orderId == o.orderId
  }

  /** With a publisher that does not raise, every cooking order in the store has exactly one
      task still to serve it, but for the one order in the middle of acceptance, and for the
      stretch in which a reset or a shutdown has told every cook to stop. */
  lemma DishHasOneTask(settings: Settings, states: seq<System>, events: seq<Event>, i: nat, t: TableId, o: Order)
    requires IsRun(settings, states, events) && i < |states|
    requires t in states[i].kitchen.store.tables && o in states[i].kitchen.store.tables[t].orders && o.status == Cooking
    requires forall n :: 0 <= n < i ==> !(events[n].KitchenActs? && events[n].action.AcceptRaise?)
    requires !states[i].kitchen.main.Cancelling? && !states[i].kitchen.main.Stopping?
    ensures var k := states[i].kitchen;
            if k.main.Accepting? && k.main.tableId == t && k.main.order.orderId == o.orderId
            then !HasCook(k, t, o.orderId)
            else HasCook(k, t, o.orderId)
    ensures var k := states[i].kitchen;
            forall m, n :: m in k.tasks && n in k.tasks && CooksFor(k.tasks[m], o) && CooksFor(k.tasks[n], o)
              ==> m == n
  {
    KitchenSound(settings, states, events, i);
    NoOrphans(settings, states, events, i);
    CookedUnlessOrphaned(settings, states, events, i, t, o);
  }

  /** And when the publisher does raise: a cooking order is without a cook exactly if it is in
      the middle of acceptance or its own acceptance raised: nothing is left to serve it. */
  lemma CookedUnlessOrphaned(settings: Settings, states: seq<System>, events: seq<Event>, i: nat, t: TableId, o: Order)
    requires IsRun(settings, states, events) && i < |states|
    requires t in states[i].kitchen.store.tables && o in states[i].kitchen.store.tables[t].orders && o.status == Cooking
    requires !states[i].kitchen.main.Cancelling? && !states[i].kitchen.main.Stopping?
    ensures var k := states[i].kitchen;
            HasCook(k, t, o.orderId) <==>
            && o.orderId !in k.orphans
            && !(k.main.Accepting? && k.main.tableId == t && k.main.order.orderId == o.orderId)
  {
    KitchenSound(settings, states, events, i);
    var k := states[i].kitchen;
    InLedger(settings, k, t, o);
    if HasCook(k, t, o.orderId) {
      var n :| n in k.tasks && Unserved(k.tasks[n]) && k.tasks[n].tableId == t && k.tasks[n].orderId == o.orderId;
      assert TaskMatches(k, k.tasks[n]);
    }
  }

  /** What the store keeps, the history has, and every dish in the history is attended. */
  lemma InLedger(settings: Settings, k: Kitchen, t: TableId, o: Order)
    requires Inv(settings, k) && t in k.store.tables && o in k.store.tables[t].orders
    ensures t in k.ledger && o in k.ledger[t] && Attended(k, t, o) && Timely(o, k.now)
    ensures Lookup(k.ledger[t], o.orderId) == Some(o)
  {
    DropMembers(k.ledger[t], Excess(k.ledger[t], k.store.maxServedHistory));
    var i :| 0 <= i < |k.ledger[t]| && k.ledger[t][i] == o;
    assert Attended(k, t, k.ledger[t][i]) && Timely(k.ledger[t][i], k.now);
    LookupUnique(k.ledger[t], k.nextOrder, o);
  }

  // --- how many cooks can be busy -------------------------------------------------------------

  function UnservedAt(k: Kitchen, ids: seq<TableId>): set<nat> {
    set i | i in UnservedTasks(k) && k.tasks[i].tableId in ids
  }

  lemma {:induction false} IdsOfTasks(k: Kitchen, tasks: set<nat>, ids: set<OrderId>)
    requires OneTaskPerDish(k) && tasks <= UnservedTasks(k)
    requires forall i :: i in tasks ==> k.tasks[i].orderId in ids
    ensures |tasks| <= |ids|
  {
    if tasks == {} {
    } else {
      var i :| i in tasks;
      var id := k.tasks[i].orderId;
      IdsOfTasks(k, tasks - {i}, ids - {id});
    }
  }

  lemma {:induction false} IdsOfOrders(orders: seq<Order>) returns (ids: set<OrderId>)
    ensures forall o :: o in orders ==> o.orderId in ids
    ensures |ids| <= |orders|
  {
    ids := {};
    if orders == [] {
    } else {
      var rest := IdsOfOrders(orders[1..]);
      ids := rest + {orders[0].orderId};
    }
  }

  lemma {:induction false} LookupCooking(orders: seq<Order>, id: OrderId)
    requires Lookup(orders, id).Some? && !IsFinished(Lookup(orders, id).value)
    ensures Lookup(orders, id).value in CookingOrders(orders)
  {
    if orders[0].orderId == id {
    } else {
      LookupCooking(orders[1..], id);
    }
  }

  /** Each table has at least as many dishes cooking as cooks at work. */
  lemma CooksWithinDishes(settings: Settings, k: Kitchen, t: TableId)
    requires Inv(settings, k) && t in settings.tables
    ensures |UnservedAt(k, [t])| <= CookingCount(k.store, t)
  {
    hide Windowed, Capped, Punctual, AllAttended, MainSound, Numbered, Increasing;
    var cooking := CookingOrders(k.store.tables[t].orders);
    var ids := IdsOfOrders(cooking);
    forall i | i in UnservedAt(k, [t]) ensures k.tasks[i].orderId in ids {
      var c := k.tasks[i];
      assert TaskMatches(k, c);
      DropKeepsCooking(k.ledger[t], c.orderId, Excess(k.ledger[t], k.store.maxServedHistory));
      LookupCooking(k.store.tables[t].orders, c.orderId);
    }
    IdsOfTasks(k, UnservedAt(k, [t]), ids);
  }

  lemma {:induction false} CooksWithinTotal(settings: Settings, k: Kitchen, ids: seq<TableId>)
    requires Inv(settings, k) && forall t :: t in ids ==> t in settings.tables
    ensures |UnservedAt(k, ids)| <= SumCooking(k.store, ids)
  {
    hide Inv, UnservedTasks, CookingCount;
    if ids == [] {
      assert UnservedAt(k, ids) == {};
    } else {
      CooksWithinDishes(settings, k, ids[0]);
      CooksWithinTotal(settings, k, ids[1..]);
      var a, b := UnservedAt(k, [ids[0]]), UnservedAt(k, ids[1..]);
      assert UnservedAt(k, ids) <= a + b;
      UnionSize(UnservedAt(k, ids), a, b);
    }
  }

  lemma UnionSize(s: set<nat>, a: set<nat>, b: set<nat>)
    requires s <= a + b
    ensures |s| <= |a| + |b|
  {
    assert a + b == s + ((a + b) - s);
    assert a + b == a + (b - a);
    assert b == (b - a) + (b * a);
  }

  /** The cooks at work are bounded, per table and in all, though the number of tasks is not:
      one that has served but is still publishing no longer counts against any limit. */
  lemma BusyCooksBounded(settings: Settings, states: seq<System>, events: seq<Event>, i: nat, t: TableId)
    requires IsRun(settings, states, events) && i < |states| && t in settings.tables
    ensures |UnservedAt(states[i].kitchen, [t])| <= settings.maxOrdersPerTable
    ensures |UnservedTasks(states[i].kitchen)| <= settings.maxOrdersGlobal
  {
    var k := states[i].kitchen;
    KitchenSound(settings, states, events, i);
    CooksWithinDishes(settings, k, t);
    var ids := SortedIds(k.store.tables.Keys);
    CooksWithinTotal(settings, k, ids);
    AllAtTables(settings, k, ids);
  }

  lemma AllAtTables(settings: Settings, k: Kitchen, ids: seq<TableId>)
    requires Inv(settings, k) && ids == SortedIds(k.store.tables.Keys)
    ensures UnservedTasks(k) == UnservedAt(k, ids)
    ensures TotalCooking(k.store) == SumCooking(k.store, ids)
  {
    hide SumCooking, Faithful, Windowed, Capped, Punctual, Increasing, Numbered, OneTaskPerDish, AllAttended, MainSound;
    forall i | i in UnservedTasks(k) ensures i in UnservedAt(k, ids) {
      assert TaskMatches(k, k.tasks[i]);
      assert k.tasks[i].tableId in k.ledger;
    }
  }

  // --- one dish, one life -------------------------------------------------------------------

  /** An order either stays as it was, or is served, once, no earlier than promised. */
  ghost predicate Ages(x: Order, y: Order) {
    || y == x
    || (&& x.status == Cooking && y.status == Served
        && y.readyAt.Some? && y.readyAt.value >= x.expectedReadyAt
        && y == Finish(x, Served, y.readyAt.value))
  }

  ghost predicate Evolves(a: seq<Order>, b: seq<Order>) {
    |a| <= |b| && forall i :: 0 <= i < |a| ==> Ages(a[i], b[i])
  }

  lemma EvolvesTrans(a: seq<Order>, b: seq<Order>, c: seq<Order>)
    requires Evolves(a, b) && Evolves(b, c)
    ensures Evolves(a, c)
  {
    forall i | 0 <= i < |a| ensures Ages(a[i], c[i]) {
      assert Ages(a[i], b[i]) && Ages(b[i], c[i]);
    }
  }

  lemma ServingEvolves(settings: Settings, k: Kitchen, k': Kitchen, i: nat, t: TableId)
    requires Shaped(settings, k) && Serves(k, k', i) && TaskMatches(k, k.tasks[i]) && t in k.ledger
    ensures t in k'.ledger && Evolves(k.ledger[t], k'.ledger[t])
  {
    var c := k.tasks[i];
    if t == c.tableId {
      forall n | 0 <= n < |k.ledger[t]| ensures Ages(k.ledger[t][n], k'.ledger[t][n]) {
        if k'.ledger[t][n] != k.ledger[t][n] {
          LookupUnique(k.ledger[t], k.nextOrder, k.ledger[t][n]);
        }
      }
    } else {
      EvolvesReflexive(k.ledger[t]);
    }
  }

  lemma WakeEvolves(settings: Settings, k: Kitchen, i: nat, t: TableId)
    requires Inv(settings, k) && t in k.ledger
    requires i in k.tasks && k.tasks[i].phase.Sleeping? && k.tasks[i].phase.due <= k.now
    ensures Serves(k, AfterWake(k, i), i)
    ensures t in AfterWake(k, i).ledger && Evolves(k.ledger[t], AfterWake(k, i).ledger[t])
  {
    assert TaskMatches(k, k.tasks[i]);
    WakeServes(settings, k, i);
    hide AfterWake, Serves;
    ServingEvolves(settings, k, AfterWake(k, i), i, t);
  }

  lemma RestEvolves(settings: Settings, k: Kitchen, a: Action, t: TableId)
    requires Inv(settings, k) && Enabled(settings, k, a) && t in k.ledger && !a.TaskWake?
    ensures Next(settings, k, a).store.epoch >= k.store.epoch
    ensures t in Next(settings, k, a).ledger
    ensures Next(settings, k, a).store.epoch == k.store.epoch ==>
              Evolves(k.ledger[t], Next(settings, k, a).ledger[t])
  {
    if a.TaskRaise? {
      RaiseIsHarmless(settings, k, a.task);
    }
    hide Inv, FinishOrder, TryAccept, AllSnapshots;
    if a.Receive? {
      ReceiveEvolves(settings, k, a, t);
    }
  }

  lemma ReceiveEvolves(settings: Settings, k: Kitchen, a: Action, t: TableId)
    requires Enabled(settings, k, a) && a.Receive? && t in k.ledger
    ensures var k' := Next(settings, k, a);
            k'.store.epoch == k.store.epoch && t in k'.ledger && Evolves(k.ledger[t], k'.ledger[t])
  {
    hide TotalCooking, CookingCount, LastN, Without, Put, Trim;
  }

  lemma EventEvolves(settings: Settings, s: System, e: Event, t: TableId)
    requires Inv(settings, s.kitchen) && CanHappen(settings, s, e) && t in s.kitchen.ledger
    ensures var k' := Happens(settings, s, e).kitchen;
            && s.kitchen.store.epoch <= k'.store.epoch
            && t in k'.ledger
            && (k'.store.epoch == s.kitchen.store.epoch ==> Evolves(s.kitchen.ledger[t], k'.ledger[t]))
  {
    hide Inv, Evolves, AfterWake;
    if e.KitchenActs? {
      if e.action.TaskWake? {
        WakeEvolves(settings, s.kitchen, e.action.task, t);
      } else {
        RestEvolves(settings, s.kitchen, e.action, t);
      }
    } else {
      EvolvesReflexive(s.kitchen.ledger[t]);
    }
  }

  lemma EvolvesReflexive(a: seq<Order>)
    ensures Evolves(a, a)
  {
  }

  lemma KeepsTables(settings: Settings, states: seq<System>, events: seq<Event>, i: nat)
    requires IsRun(settings, states, events) && i < |states|
    ensures states[i].kitchen.ledger.Keys == settings.tables
    ensures states[i].kitchen.store.tables.Keys == settings.tables
  {
    KitchenSound(settings, states, events, i);
  }

  /** Within a generation the history of a table only grows, and each dish in it ages. */
  lemma {:induction false} HistoryEvolves(
      settings: Settings, states: seq<System>, events: seq<Event>, i: nat, j: nat, t: TableId)
    requires IsRun(settings, states, events) && i <= j < |states| && t in settings.tables
    ensures states[i].kitchen.store.epoch <= states[j].kitchen.store.epoch
    ensures t in states[i].kitchen.ledger && t in states[j].kitchen.ledger
    ensures states[i].kitchen.store.epoch == states[j].kitchen.store.epoch ==>
              Evolves(states[i].kitchen.ledger[t], states[j].kitchen.ledger[t])
  {
    hide Inv, Evolves, CanHappen, Happens;
    KeepsTables(settings, states, events, i);
    if i < j {
      HistoryEvolves(settings, states, events, i, j - 1, t);
      KitchenSound(settings, states, events, j - 1);
      assert Step(settings, states[j - 1], events[j - 1], states[j]);
      EventEvolves(settings, states[j - 1], events[j - 1], t);
      if states[i].kitchen.store.epoch == states[j].kitchen.store.epoch {
        EvolvesTrans(states[i].kitchen.ledger[t], states[j - 1].kitchen.ledger[t], states[j].kitchen.ledger[t]);
      }
    } else {
      EvolvesReflexive(states[i].kitchen.ledger[t]);
    }
  }

  /** An order shown at two moments of one generation is the same order, served in between at
      most once, and never before its expected time. It is never failed. */
  lemma OneTerminalTransition(settings: Settings, states: seq<System>, events: seq<Event>, i: nat, j: nat,
                              t: TableId, x: Order, y: Order)
    requires IsRun(settings, states, events) && i <= j < |states| && t in settings.tables
    requires states[i].kitchen.store.epoch == states[j].kitchen.store.epoch
    requires t in states[i].kitchen.store.tables && x in states[i].kitchen.store.tables[t].orders
    requires t in states[j].kitchen.store.tables && y in states[j].kitchen.store.tables[t].orders
    requires x.orderId == y.orderId
    ensures Ages(x, y)
    ensures y.status != Failed && (y.status == Cooking <==> y.readyAt == None)
  {
    hide IsRun, Inv, Evolves, Ages, Attended, Lookup;
    KitchenSound(settings, states, events, i);
    KitchenSound(settings, states, events, j);
    HistoryEvolves(settings, states, events, i, j, t);
    InLedger(settings, states[i].kitchen, t, x);
    InLedger(settings, states[j].kitchen, t, y);
    AgedInHistory(settings, states[i].kitchen.ledger[t], states[j].kitchen, t, x, y);
  }

  lemma AgedInHistory(settings: Settings, before: seq<Order>, k: Kitchen, t: TableId, x: Order, y: Order)
    requires Inv(settings, k) && t in k.ledger && Evolves(before, k.ledger[t])
    requires x in before && Lookup(k.ledger[t], y.orderId) == Some(y) && x.orderId == y.orderId
    ensures Ages(x, y)
  {
    hide Lookup;
    var n :| 0 <= n < |before| && before[n] == x;
    assert Ages(before[n], k.ledger[t][n]);
    LookupUnique(k.ledger[t], k.nextOrder, k.ledger[t][n]);
  }

  // --- after the goodbye --------------------------------------------------------------------

  /** Once shutdown has begun, no cook and no handler publishes anything. */
  lemma SilentAfterStop(settings: Settings, states: seq<System>, events: seq<Event>, i: nat)
    requires IsRun(settings, states, events) && i < |events|
    requires states[i].kitchen.main.Stopping? && events[i].KitchenActs?
    ensures Enabled(settings, states[i].kitchen, events[i].action)
    ensures Sent(settings, states[i].kitchen, events[i].action) == None
    ensures !events[i].action.Restart? ==> states[i + 1].kitchen.main.Stopping?
  {
    hide BooksInv, Numbered, TasksMatch, OneTaskPerDish, AllAttended, MainSound, Sent, Next, Enabled;
    KitchenSound(settings, states, events, i);
    assert Step(settings, states[i], events[i], states[i + 1]);
    StoppedIsSilent(settings, states[i].kitchen, events[i].action);
  }

  lemma StoppedIsSilent(settings: Settings, k: Kitchen, a: Action)
    requires MainSound(k) && k.main.Stopping? && Enabled(settings, k, a)
    ensures Sent(settings, k, a) == None
    ensures !a.Restart? ==> Next(settings, k, a).main.Stopping?
  {
    hide TryAccept, FinishOrder, AllSnapshots;
  }
}
