/** Every action keeps the kitchen's invariants. */
module KitchenProofs {
  import opened Models
  import opened OrderLists
  import opened StoreModel
  import opened KitchenModel
  import opened KitchenInvariants

  // --- facts about a ledger --------------------------------------------------------------

  lemma {:induction false} LookupUnique(orders: seq<Order>, bound: OrderId, o: Order)
    requires Increasing(orders, bound) && o in orders
    ensures Lookup(orders, o.orderId) == Some(o)
  {
    if orders[0] == o {
    } else {
      var i :| 0 <= i < |orders| && orders[i] == o;
      assert orders[1..][i - 1] == o;
      LookupUnique(orders[1..], bound, o);
    }
  }

  lemma {:induction false} DropMembers(orders: seq<Order>, k: nat)
    ensures forall o :: o in DropFinished(orders, k) ==> o in orders
  {
    if k == 0 || orders == [] {
    } else {
      DropMembers(orders[1..], if IsFinished(orders[0]) then k - 1 else k);
    }
  }

  /** An order already finished in the ledger is not found cooking in the store. */
  lemma FinishedStaysFinished(k: Kitchen, t: TableId, id: OrderId, status: OrderStatus, at: Millis)
    requires t in k.store.tables && t in k.ledger && Faithful(k) && Increasing(k.ledger[t], k.nextOrder)
    requires Lookup(k.ledger[t], id).Some? && IsFinished(Lookup(k.ledger[t], id).value)
    ensures FinishOrder(k.store, t, id, status, at).None?
  {
    var found := Lookup(k.store.tables[t].orders, id);
    if found.Some? {
      DropMembers(k.ledger[t], Excess(k.ledger[t], k.store.maxServedHistory));
      LookupUnique(k.ledger[t], k.nextOrder, found.value);
    }
  }

  lemma MarkIncreasing(orders: seq<Order>, bound: OrderId, id: OrderId, status: OrderStatus, at: Millis)
    requires Increasing(orders, bound)
    ensures Increasing(Mark(orders, id, status, at), bound)
  {
    var m := Mark(orders, id, status, at);
    assert forall i :: 0 <= i < |m| ==> m[i].orderId == orders[i].orderId;
  }

  /** The store's cooking count is the ledger's. */
  lemma CountFromLedger(k: Kitchen, t: TableId)
    requires t in k.store.tables && t in k.ledger && Faithful(k)
    ensures CookingCount(k.store, t) == |CookingOrders(k.ledger[t])|
  {
    TrimKeeps(k.ledger[t], k.store.maxServedHistory);
  }

  // --- accepting an order ----------------------------------------------------------------

  predicate Accepts(settings: Settings, k: Kitchen, topicTable: TableId, cmd: OrderPlaced, delay: int) {
    TryAccept(settings, k.store, cmd, topicTable, k.nextOrder, delay, k.now).Accepted?
  }

  /** The kitchen with one more order placed, stated on the ledger. */
  ghost predicate Placed(k: Kitchen, k': Kitchen, t: TableId, order: Order, key: string) {
    && t in k.ledger && t in k.store.tables
    && k'.ledger == k.ledger[t := k.ledger[t] + [order]]
    && k'.store == k.store.(
         seen := LastN(Without(k.store.seen, key) + [key], k.store.dedupeCacheSize),
         tables := k.store.tables[t :=
           TableRecord(k.store.tables[t].version + 1, Trim(k.ledger[t] + [order], k.store.maxServedHistory))])
    && k'.keys == k.keys + [key]
    && k'.now == k.now && k'.tasks == k.tasks && k'.nextTask == k.nextTask && k'.orphans == k.orphans
    && k'.nextOrder == k.nextOrder + 1 && k'.main == Accepting(t, order)
    && order.orderId == k.nextOrder && order.status == Cooking
    && Timely(order, k.now)
  }

  /** Appending to a trimmed record is trimming the appended ledger. */
  lemma RecordAppend(kept: seq<Order>, full: seq<Order>, order: Order, limit: nat)
    requires kept == Trim(full, limit)
    requires forall o :: o in full ==> o.orderId < order.orderId
    ensures Trim(Put(kept, order), limit) == Trim(full + [order], limit)
  {
    DropMembers(full, Excess(full, limit));
    assert Lookup(kept, order.orderId).None?;
    TrimAppend(full, order, limit);
  }

  /** What an acceptance amounts to: every check passed, and one commit. */
  lemma AcceptOutcome(settings: Settings, k: Kitchen, topicTable: TableId, cmd: OrderPlaced, delay: int)
    requires Accepts(settings, k, topicTable, cmd, delay)
    ensures cmd.tableId in k.store.tables
    ensures cmd.clientOrderId !in k.store.seen
    ensures CookingCount(k.store, cmd.tableId) < settings.maxOrdersPerTable
    ensures TotalCooking(k.store) < settings.maxOrdersGlobal
    ensures var order := NewOrder(cmd, k.nextOrder, delay, k.now);
            TryAccept(settings, k.store, cmd, topicTable, k.nextOrder, delay, k.now)
              == Accepted(order, AddOrder(Remember(k.store, cmd.clientOrderId), cmd.tableId, order))
  {
  }

  lemma CommitPlaces(settings: Settings, k: Kitchen, cmd: OrderPlaced, delay: int)
    requires Shaped(settings, k) && Faithful(k) && cmd.tableId in k.store.tables
    ensures var order := NewOrder(cmd, k.nextOrder, delay, k.now);
            var store := AddOrder(Remember(k.store, cmd.clientOrderId), cmd.tableId, order);
            Placed(k, Commit(k, cmd, order, store), cmd.tableId, order, cmd.clientOrderId)
  {
    var t := cmd.tableId;
    assert Increasing(k.ledger[t], k.nextOrder);
    RecordAppend(k.store.tables[t].orders, k.ledger[t], NewOrder(cmd, k.nextOrder, delay, k.now),
                 k.store.maxServedHistory);
  }

  lemma PlacedShaped(settings: Settings, k: Kitchen, k': Kitchen, t: TableId, order: Order, key: string)
    requires Shaped(settings, k) && Placed(k, k', t, order, key)
    ensures Shaped(settings, k')
  {
    assert Increasing(k.ledger[t], k.nextOrder);
    forall u | u in k'.ledger ensures Increasing(k'.ledger[u], k'.nextOrder) {
      assert Increasing(k.ledger[u], k.nextOrder);
    }
  }

  lemma PlacedRecords(k: Kitchen, k': Kitchen, t: TableId, order: Order, key: string)
    requires Faithful(k) && Windowed(k) && Punctual(k) && Placed(k, k', t, order, key)
    requires key !in k.store.seen
    ensures Faithful(k') && Windowed(k') && Punctual(k')
  {
    FilterAppend(k.ledger[t], order);
    WindowSlides(k.keys, key, k.store.dedupeCacheSize);
  }

  lemma PlacedCapped(settings: Settings, k: Kitchen, k': Kitchen, t: TableId, order: Order, key: string)
    requires Faithful(k) && Faithful(k') && Capped(settings, k) && Placed(k, k', t, order, key)
    requires CookingCount(k.store, t) < settings.maxOrdersPerTable
    requires TotalCooking(k.store) < settings.maxOrdersGlobal
    ensures Capped(settings, k')
  {
    hide Faithful, TotalCooking, CookingOrders, FinishedOrders, Trim;
    CountFromLedger(k, t);
    CountFromLedger(k', t);
    FilterAppend(k.ledger[t], order);
    assert k'.store.tables.Keys == k.store.tables.Keys;
    TotalChanged(k.store, k'.store, t);
  }

  lemma PlacedTasks(k: Kitchen, k': Kitchen, t: TableId, order: Order, key: string)
    requires Numbered(k) && TasksMatch(k) && Placed(k, k', t, order, key)
    ensures TasksMatch(k')
  {
    forall i | i in k'.tasks ensures TaskMatches(k', k'.tasks[i]) {
      assert TaskMatches(k, k.tasks[i]);
      LookupAppend(k.ledger[t], order, k.tasks[i].orderId);
    }
  }

  lemma PlacedStaffed(settings: Settings, k: Kitchen, k': Kitchen, t: TableId, order: Order, key: string)
    requires Shaped(settings, k) && StaffInv(k) && k.main.Idle? && Placed(k, k', t, order, key)
    ensures StaffInv(k')
  {
    PlacedTasks(k, k', t, order, key);
    assert Increasing(k.ledger[t], k.nextOrder);
    LookupAppend(k.ledger[t], order, order.orderId);
    forall u, i | u in k'.ledger && 0 <= i < |k'.ledger[u]| ensures Attended(k', u, k'.ledger[u][i]) {
      if !(u == t && i == |k.ledger[t]|) {
        assert Attended(k, u, k.ledger[u][i]);
        CookCarries(k, k', u, k.ledger[u][i].orderId);
      }
    }
  }

  /** Every dish's cook in `k` is still its cook in `k'`. */
  ghost predicate KeepsCooks(k: Kitchen, k': Kitchen) {
    forall i :: i in k.tasks && Unserved(k.tasks[i]) ==>
      && i in k'.tasks && Unserved(k'.tasks[i])
      && k'.tasks[i].tableId == k.tasks[i].tableId && k'.tasks[i].orderId == k.tasks[i].orderId
  }

  lemma CookCarries(k: Kitchen, k': Kitchen, t: TableId, id: OrderId)
    requires KeepsCooks(k, k')
    ensures HasCook(k, t, id) ==> HasCook(k', t, id)
  {
    if HasCook(k, t, id) {
      var i :| i in k.tasks && Unserved(k.tasks[i]) && k.tasks[i].tableId == t && k.tasks[i].orderId == id;
      assert Unserved(k'.tasks[i]);
    }
  }

  lemma ReceiveKeeps(settings: Settings, k: Kitchen, topicTable: TableId, cmd: OrderPlaced, delay: int)
    requires Inv(settings, k) && k.main.Idle?
    ensures Inv(settings, AfterReceive(settings, k, topicTable, cmd, delay))
  {
    if Accepts(settings, k, topicTable, cmd, delay) {
      var k' := AfterReceive(settings, k, topicTable, cmd, delay);
      var order := NewOrder(cmd, k.nextOrder, delay, k.now);
      AcceptOutcome(settings, k, topicTable, cmd, delay);
      CommitPlaces(settings, k, cmd, delay);
      PlacedShaped(settings, k, k', cmd.tableId, order, cmd.clientOrderId);
      PlacedRecords(k, k', cmd.tableId, order, cmd.clientOrderId);
      PlacedCapped(settings, k, k', cmd.tableId, order, cmd.clientOrderId);
      PlacedStaffed(settings, k, k', cmd.tableId, order, cmd.clientOrderId);
    }
  }

  // --- serving a dish --------------------------------------------------------------------

  /** The kitchen with task `i`'s dish served, stated on the ledger. */
  ghost predicate Serves(k: Kitchen, k': Kitchen, i: nat) {
    && i in k.tasks && k.tasks[i].phase.Sleeping? && k.tasks[i].phase.due <= k.now
    && var c := k.tasks[i];
       var t := c.tableId;
       && t in k.ledger && t in k.store.tables
       && var full := Mark(k.ledger[t], c.orderId, Served, k.now);
          && k'.ledger == k.ledger[t := full]
          && k'.store == k.store.(tables := k.store.tables[t :=
               TableRecord(k.store.tables[t].version + 1, Trim(full, k.store.maxServedHistory))])
          && k'.tasks == k.tasks[i := c.(phase := Publishing)]
          && k'.keys == k.keys && k'.now == k.now && k'.nextTask == k.nextTask
          && k'.orphans == k.orphans && k'.nextOrder == k.nextOrder && k'.main == k.main
  }

  /** Finishing in a trimmed record is trimming the finished ledger. */
  lemma WakeFinishes(settings: Settings, k: Kitchen, i: nat)
    requires Shaped(settings, k) && Faithful(k)
    requires i in k.tasks && k.tasks[i].phase.Sleeping? && TaskMatches(k, k.tasks[i])
    ensures var c := k.tasks[i];
            var t := c.tableId;
            && t in k.store.tables
            && FinishOrder(k.store, t, c.orderId, Served, k.now)
                 == Some(k.store.(tables := k.store.tables[t := TableRecord(k.store.tables[t].version + 1,
                      Trim(Mark(k.ledger[t], c.orderId, Served, k.now), k.store.maxServedHistory))]))
  {
    hide Trim, Mark, Lookup, Increasing, FinishedOrders;
    var c := k.tasks[i];
    TrimMark(k.ledger[c.tableId], c.orderId, Served, k.now, k.store.maxServedHistory);
  }

  lemma WakeServes(settings: Settings, k: Kitchen, i: nat)
    requires Shaped(settings, k) && Faithful(k)
    requires i in k.tasks && k.tasks[i].phase.Sleeping? && k.tasks[i].phase.due <= k.now
    requires TaskMatches(k, k.tasks[i])
    ensures Serves(k, AfterWake(k, i), i)
  {
    WakeFinishes(settings, k, i);
  }

  lemma ServesShaped(settings: Settings, k: Kitchen, k': Kitchen, i: nat)
    requires Shaped(settings, k) && Serves(k, k', i)
    ensures Shaped(settings, k')
  {
    var c := k.tasks[i];
    MarkIncreasing(k.ledger[c.tableId], k.nextOrder, c.orderId, Served, k.now);
  }

  lemma ServesRecords(k: Kitchen, k': Kitchen, i: nat)
    requires Faithful(k) && Windowed(k) && Serves(k, k', i) && TaskMatches(k, k.tasks[i])
    ensures Faithful(k') && Windowed(k')
  {
    var c := k.tasks[i];
    MarkFilters(k.ledger[c.tableId], c.orderId, Served, k.now);
  }

  lemma ServesPunctual(settings: Settings, k: Kitchen, k': Kitchen, i: nat)
    requires Shaped(settings, k) && Punctual(k) && Serves(k, k', i) && TaskMatches(k, k.tasks[i])
    ensures Punctual(k')
  {
    var c := k.tasks[i];
    var full := k.ledger[c.tableId];
    var o := Dish(k, c).value;
    forall t, j | t in k'.ledger && 0 <= j < |k'.ledger[t]| ensures Timely(k'.ledger[t][j], k'.now) {
      assert Timely(k.ledger[t][j], k.now);
      if t == c.tableId && k'.ledger[t][j] != full[j] {
        LookupUnique(full, k.nextOrder, full[j]);
      }
    }
  }

  lemma ServesCapped(settings: Settings, k: Kitchen, k': Kitchen, i: nat)
    requires Faithful(k) && Faithful(k') && Capped(settings, k) && Serves(k, k', i) && TaskMatches(k, k.tasks[i])
    ensures Capped(settings, k')
  {
    hide Faithful, TotalCooking, CookingOrders, FinishedOrders, Trim;
    var c := k.tasks[i];
    CountFromLedger(k, c.tableId);
    CountFromLedger(k', c.tableId);
    MarkFilters(k.ledger[c.tableId], c.orderId, Served, k.now);
    assert k'.store.tables.Keys == k.store.tables.Keys;
    TotalChanged(k.store, k'.store, c.tableId);
  }

  lemma ServesTasks(k: Kitchen, k': Kitchen, i: nat)
    requires TasksMatch(k) && OneTaskPerDish(k) && Serves(k, k', i)
    ensures TasksMatch(k')
  {
    var c := k.tasks[i];
    assert TaskMatches(k, c);
    forall j | j in k'.tasks ensures TaskMatches(k', k'.tasks[j]) {
      assert TaskMatches(k, k.tasks[j]);
      LookupMark(k.ledger[c.tableId], c.orderId, Served, k.now, k.tasks[j].orderId);
    }
  }

  lemma ServesStaffed(settings: Settings, k: Kitchen, k': Kitchen, i: nat)
    requires Shaped(settings, k) && StaffInv(k) && Serves(k, k', i)
    ensures StaffInv(k')
  {
    hide Trim, Mark, Lookup;
    var c := k.tasks[i];
    ServesTasks(k, k', i);
    assert TaskMatches(k, c);
    if k.main.Accepting? {
      LookupMark(k.ledger[c.tableId], c.orderId, Served, k.now, k.main.order.orderId);
    }
    forall t, j | t in k'.ledger && 0 <= j < |k'.ledger[t]| ensures Attended(k', t, k'.ledger[t][j]) {
      assert Attended(k, t, k.ledger[t][j]);
      if t == c.tableId && k.ledger[t][j].orderId == c.orderId {
        ServedNotCooking(settings, k, k', i, j);
      } else {
        OtherCookCarries(k, k', i, t, k.ledger[t][j].orderId);
      }
    }
  }

  lemma ServedNotCooking(settings: Settings, k: Kitchen, k': Kitchen, i: nat, j: nat)
    requires Shaped(settings, k) && Serves(k, k', i) && TaskMatches(k, k.tasks[i])
    requires j < |k.ledger[k.tasks[i].tableId]| && k.ledger[k.tasks[i].tableId][j].orderId == k.tasks[i].orderId
    ensures k'.ledger[k.tasks[i].tableId][j].status == Served
  {
    var c := k.tasks[i];
    var t := c.tableId;
    MarkIncreasing(k.ledger[t], k.nextOrder, c.orderId, Served, k.now);
    LookupUnique(k'.ledger[t], k.nextOrder, k'.ledger[t][j]);
    LookupMark(k.ledger[t], c.orderId, Served, k.now, c.orderId);
  }

  lemma OtherCookCarries(k: Kitchen, k': Kitchen, i: nat, t: TableId, id: OrderId)
    requires i in k.tasks && k'.tasks == k.tasks[i := k.tasks[i].(phase := Publishing)]
    requires t != k.tasks[i].tableId || id != k.tasks[i].orderId
    ensures HasCook(k, t, id) ==> HasCook(k', t, id)
  {
    if HasCook(k, t, id) {
      var n :| n in k.tasks && Unserved(k.tasks[n]) && k.tasks[n].tableId == t && k.tasks[n].orderId == id;
      assert k'.tasks[n] == k.tasks[n];
    }
  }

  lemma WakeKeeps(settings: Settings, k: Kitchen, i: nat)
    requires Inv(settings, k) && Enabled(settings, k, TaskWake(i))
    ensures Inv(settings, AfterWake(k, i))
  {
    var k' := AfterWake(k, i);
    assert TaskMatches(k, k.tasks[i]);
    WakeServes(settings, k, i);
    ServesShaped(settings, k, k', i);
    ServesRecords(k, k', i);
    ServesPunctual(settings, k, k', i);
    ServesCapped(settings, k, k', i);
    ServesStaffed(settings, k, k', i);
  }

  // --- everything else -------------------------------------------------------------------

  /** A publish that raises after serving finds the dish served and changes nothing. */
  lemma RaiseIsHarmless(settings: Settings, k: Kitchen, i: nat)
    requires Inv(settings, k) && Enabled(settings, k, TaskRaise(i))
    ensures FinishOrder(k.store, k.tasks[i].tableId, k.tasks[i].orderId, Failed, k.now).None?
    ensures AfterRaise(k, i) == WithoutTask(k, i)
  {
    var c := k.tasks[i];
    assert TaskMatches(k, c);
    FinishedStaysFinished(k, c.tableId, c.orderId, Failed, k.now);
  }

  /** Tables, ledger and keys untouched: the records stay right as time passes. */
  lemma BooksCarry(settings: Settings, k: Kitchen, k': Kitchen)
    requires BooksInv(settings, k)
    requires k'.store == k.store && k'.ledger == k.ledger && k'.keys == k.keys && k'.nextOrder == k.nextOrder
    requires k.now <= k'.now
    ensures BooksInv(settings, k')
  {
    forall t, i | t in k'.ledger && 0 <= i < |k'.ledger[t]| ensures Timely(k'.ledger[t][i], k'.now) {
      assert Timely(k.ledger[t][i], k.now);
    }
  }

  /** Cooks kept, excuses kept: every dish stays attended. */
  lemma AttendanceCarries(k: Kitchen, k': Kitchen)
    requires AllAttended(k) && k'.ledger == k.ledger
    requires KeepsCooks(k, k') && k.orphans <= k'.orphans
    requires k.main.Cancelling? || k.main.Stopping? ==> k'.main == k.main
    requires k.main.Accepting? ==>
               || k'.main == k.main
               || HasCook(k', k.main.tableId, k.main.order.orderId)
               || k.main.order.orderId in k'.orphans
    ensures AllAttended(k')
  {
    forall t, i | t in k'.ledger && 0 <= i < |k'.ledger[t]| ensures Attended(k', t, k'.ledger[t][i]) {
      assert Attended(k, t, k.ledger[t][i]);
      CookCarries(k, k', t, k.ledger[t][i].orderId);
    }
  }

  /** No task but those of `k` is at work, and orders in hand stay in hand. */
  lemma TasksCarry(k: Kitchen, k': Kitchen)
    requires Numbered(k) && TasksMatch(k) && OneTaskPerDish(k)
    requires k'.ledger == k.ledger && k'.orphans == k.orphans
    requires k'.nextOrder == k.nextOrder && k'.nextTask == k.nextTask
    requires forall i :: i in k'.tasks ==>
               i in k.tasks && (k'.tasks[i] == k.tasks[i] || k'.tasks[i] == k.tasks[i].(phase := Cancelled))
    requires k'.main.Accepting? ==> k'.main == k.main
    ensures Numbered(k') && TasksMatch(k') && OneTaskPerDish(k')
  {
    forall i | i in k'.tasks ensures TaskMatches(k', k'.tasks[i]) {
      assert TaskMatches(k, k.tasks[i]);
    }
  }

  lemma WithoutTaskStaffed(k: Kitchen, i: nat)
    requires StaffInv(k) && i in k.tasks && !Unserved(k.tasks[i])
    ensures StaffInv(WithoutTask(k, i))
  {
    TasksCarry(k, WithoutTask(k, i));
    AttendanceCarries(k, WithoutTask(k, i));
  }

  /** Removing a task that has already served, or is unwinding, leaves every dish attended. */
  lemma WithoutTaskKeeps(settings: Settings, k: Kitchen, i: nat)
    requires Inv(settings, k) && i in k.tasks && !Unserved(k.tasks[i])
    ensures Inv(settings, WithoutTask(k, i))
  {
    BooksCarry(settings, k, WithoutTask(k, i));
    WithoutTaskStaffed(k, i);
  }

  lemma StartedMatches(k: Kitchen, i: nat)
    requires Punctual(k) && TasksMatch(k) && i in k.tasks && k.tasks[i].phase.Spawned?
    ensures TasksMatch(WithPhase(k, i, Sleeping(k.now + 1000 * k.tasks[i].cookSeconds)))
  {
    var c := k.tasks[i];
    var k' := WithPhase(k, i, Sleeping(k.now + 1000 * c.cookSeconds));
    assert TaskMatches(k, c);
    var o := Dish(k, c).value;
    var n :| 0 <= n < |k.ledger[c.tableId]| && k.ledger[c.tableId][n] == o;
    assert Timely(k.ledger[c.tableId][n], k.now);
    forall j | j in k'.tasks ensures TaskMatches(k', k'.tasks[j]) {
      assert TaskMatches(k, k.tasks[j]);
    }
  }

  lemma StartStaffed(k: Kitchen, i: nat)
    requires Punctual(k) && StaffInv(k) && i in k.tasks && k.tasks[i].phase.Spawned?
    ensures StaffInv(WithPhase(k, i, Sleeping(k.now + 1000 * k.tasks[i].cookSeconds)))
  {
    var k' := WithPhase(k, i, Sleeping(k.now + 1000 * k.tasks[i].cookSeconds));
    StartedMatches(k, i);
    AttendanceCarries(k, k');
  }

  /** A spawned task starts its timer. */
  lemma StartKeeps(settings: Settings, k: Kitchen, i: nat)
    requires Inv(settings, k) && i in k.tasks && k.tasks[i].phase.Spawned?
    ensures Inv(settings, WithPhase(k, i, Sleeping(k.now + 1000 * k.tasks[i].cookSeconds)))
  {
    var k' := WithPhase(k, i, Sleeping(k.now + 1000 * k.tasks[i].cookSeconds));
    BooksCarry(settings, k, k');
    StartStaffed(k, i);
  }

  lemma SpawnStaffed(settings: Settings, k: Kitchen, k': Kitchen)
    requires StaffInv(k) && k.main.Accepting? && Enabled(settings, k, SpawnCook) && k' == Next(settings, k, SpawnCook)
    ensures StaffInv(k')
  {
    forall j | j in k'.tasks ensures TaskMatches(k', k'.tasks[j]) {
      assert j in k.tasks ==> TaskMatches(k, k.tasks[j]);
    }
    forall i, j | i in k'.tasks && j in k'.tasks && i != j && Unserved(k'.tasks[i]) && Unserved(k'.tasks[j])
      ensures k'.tasks[i].orderId != k'.tasks[j].orderId
    {
      assert i in k.tasks ==> TaskMatches(k, k.tasks[i]);
      assert j in k.tasks ==> TaskMatches(k, k.tasks[j]);
    }
    assert Unserved(k'.tasks[k.nextTask]);
    AttendanceCarries(k, k');
  }

  /** The accepted order gets its cook. */
  lemma SpawnKeeps(settings: Settings, k: Kitchen)
    requires Inv(settings, k) && k.main.Accepting?
    ensures Inv(settings, Next(settings, k, SpawnCook))
  {
    BooksCarry(settings, k, Next(settings, k, SpawnCook));
    SpawnStaffed(settings, k, Next(settings, k, SpawnCook));
  }

  lemma OrphanStaffed(k: Kitchen, k': Kitchen)
    requires StaffInv(k) && k.main.Accepting?
    requires k' == k.(main := Idle, orphans := k.orphans + {k.main.order.orderId})
    ensures StaffInv(k')
  {
    forall j | j in k'.tasks ensures TaskMatches(k', k'.tasks[j]) {
      assert TaskMatches(k, k.tasks[j]);
    }
    AttendanceCarries(k, k');
  }

  /** The accepted order loses its chance of a cook. */
  lemma OrphanKeeps(settings: Settings, k: Kitchen)
    requires Inv(settings, k) && k.main.Accepting?
    ensures Inv(settings, Next(settings, k, AcceptRaise))
  {
    BooksCarry(settings, k, Next(settings, k, AcceptRaise));
    OrphanStaffed(k, Next(settings, k, AcceptRaise));
  }

  /** Every cook is told to stop. */
  lemma CancelKeeps(settings: Settings, k: Kitchen, m: Main)
    requires Inv(settings, k) && (m.Cancelling? || m.Stopping?)
    ensures Inv(settings, CancelAll(k).(main := m))
  {
    BooksCarry(settings, k, CancelAll(k).(main := m));
    TasksCarry(k, CancelAll(k).(main := m));
  }

  /** A wiped kitchen: nothing placed, nothing cooking, nobody cooking it. */
  lemma EmptyKeeps(settings: Settings, k: Kitchen)
    requires k.store.tables.Keys == settings.tables && k.ledger.Keys == settings.tables
    requires k.store.dedupeCacheSize == settings.dedupeCacheSize
    requires k.store.maxServedHistory == settings.maxServedHistory
    requires forall t :: t in k.store.tables ==> k.store.tables[t] == TableRecord(0, [])
    requires forall t :: t in k.ledger ==> k.ledger[t] == []
    requires k.tasks == map[] && k.orphans == {} && k.keys == [] && k.store.seen == []
    requires !k.main.Accepting?
    ensures Inv(settings, k)
  {
    hide SumCooking, SortedIds;
    SumZero(k.store, SortedIds(k.store.tables.Keys));
  }

  /** Time passes, or the consumer or the session moves on without touching any dish. */
  lemma MainKeeps(settings: Settings, k: Kitchen, m: Main, now: Millis)
    requires Inv(settings, k) && k.now <= now
    requires || m == k.main
             || (&& !k.main.Accepting? && !k.main.Cancelling? && !k.main.Stopping?
                 && !m.Accepting? && !m.Cancelling? && !m.Stopping? && (m.Resetting? ==> k.main.Resetting?))
    ensures Inv(settings, k.(main := m, now := now))
  {
    BooksCarry(settings, k, k.(main := m, now := now));
    TasksCarry(k, k.(main := m, now := now));
    AttendanceCarries(k, k.(main := m, now := now));
  }

  lemma InitKeeps(settings: Settings, epoch: Epoch, now: Millis)
    ensures Inv(settings, Fresh(settings, epoch, now))
  {
    EmptyKeeps(settings, Fresh(settings, epoch, now));
  }

  lemma RaiseKeeps(settings: Settings, k: Kitchen, i: nat)
    requires Inv(settings, k) && Enabled(settings, k, TaskRaise(i))
    ensures Inv(settings, AfterRaise(k, i))
  {
    hide Inv, AfterRaise;
    RaiseIsHarmless(settings, k, i);
    WithoutTaskKeeps(settings, k, i);
  }

  lemma WipeKeeps(settings: Settings, k: Kitchen)
    requires Inv(settings, k) && k.main.Cancelling? && k.tasks == map[]
    ensures Inv(settings, Next(settings, k, ResetCommit))
  {
    EmptyKeeps(settings, Next(settings, k, ResetCommit));
  }

  lemma DishStepKeeps(settings: Settings, k: Kitchen, a: Action)
    requires Inv(settings, k) && Enabled(settings, k, a)
    requires a.TaskStart? || a.TaskWake? || a.TaskReturn? || a.TaskRaise? || a.TaskReap?
    ensures Inv(settings, Next(settings, k, a))
  {
    hide BooksInv, StaffInv;
    if a.TaskStart? {
      StartKeeps(settings, k, a.task);
    } else if a.TaskWake? {
      WakeKeeps(settings, k, a.task);
    } else if a.TaskRaise? {
      RaiseKeeps(settings, k, a.task);
    } else {
      WithoutTaskKeeps(settings, k, a.task);
    }
  }

  lemma OrderStepKeeps(settings: Settings, k: Kitchen, a: Action)
    requires Inv(settings, k) && Enabled(settings, k, a)
    requires a.Receive? || a.SpawnCook? || a.AcceptRaise?
    ensures Inv(settings, Next(settings, k, a))
  {
    hide BooksInv, StaffInv;
    if a.Receive? {
      ReceiveKeeps(settings, k, a.topicTable, a.cmd, a.delay);
    } else if a.SpawnCook? {
      SpawnKeeps(settings, k);
    } else {
      OrphanKeeps(settings, k);
    }
  }

  lemma WipeStepKeeps(settings: Settings, k: Kitchen, a: Action)
    requires Inv(settings, k) && Enabled(settings, k, a)
    requires a.ResetBegin? || a.ResetCommit? || a.Stop? || a.Restart?
    ensures Inv(settings, Next(settings, k, a))
  {
    hide BooksInv, StaffInv;
    if a.ResetBegin? {
      CancelKeeps(settings, k, Cancelling);
    } else if a.Stop? {
      CancelKeeps(settings, k, Stopping);
    } else if a.ResetCommit? {
      WipeKeeps(settings, k);
    } else {
      InitKeeps(settings, k.store.epoch + 1, k.now);
    }
  }

  /** Every action, in every state, keeps every invariant. */
  lemma StepKeeps(settings: Settings, k: Kitchen, a: Action)
    requires Inv(settings, k) && Enabled(settings, k, a)
    ensures Inv(settings, Next(settings, k, a))
  {
    hide BooksInv, StaffInv;
    if a.TaskStart? || a.TaskWake? || a.TaskReturn? || a.TaskRaise? || a.TaskReap? {
      DishStepKeeps(settings, k, a);
    } else if a.Receive? || a.SpawnCook? || a.AcceptRaise? {
      OrderStepKeeps(settings, k, a);
    } else if a.ResetBegin? || a.ResetCommit? || a.Stop? || a.Restart? {
      WipeStepKeeps(settings, k, a);
    } else {
      var k' := Next(settings, k, a);
      MainKeeps(settings, k, k'.main, k'.now);
    }
  }
}
