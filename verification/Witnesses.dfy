/** Reachable states that show what can go wrong: every condition in the theorems is needed. */
module Witnesses {
  import opened Models
  import opened OrderLists
  import opened StoreModel
  import opened KitchenModel
  import opened KitchenInvariants
  import opened KitchenProofs
  import opened Drain
  import opened Replication
  import opened Convergence
  import opened RestaurantSystem
  import opened Runs
  import opened BrowserWindows
  import opened Losses

  // --- reaching states ------------------------------------------------------------------------

  lemma Extend(settings: Settings, states: seq<System>, events: seq<Event>, e: Event)
    requires IsRun(settings, states, events) && CanHappen(settings, states[|events|], e)
    ensures IsRun(settings, states + [Happens(settings, states[|events|], e)], events + [e])
  {
    var states', events' := states + [Happens(settings, states[|events|], e)], events + [e];
    forall i | 0 <= i < |events'| ensures Step(settings, states'[i], events'[i], states'[i + 1]) {
      if i < |events| {
        assert Step(settings, states[i], events[i], states[i + 1]);
      }
    }
  }

  /** `s` ends some run. */
  ghost predicate Reachable(settings: Settings, s: System) {
    exists states, events :: IsRun(settings, states, events) && states[|events|] == s
  }

  lemma ReachNext(settings: Settings, s: System, e: Event)
    requires Reachable(settings, s) && CanHappen(settings, s, e)
    ensures Reachable(settings, Happens(settings, s, e))
  {
    var states, events :| IsRun(settings, states, events) && states[|events|] == s;
    Extend(settings, states, events, e);
  }

  lemma ReachableSound(settings: Settings, s: System)
    requires Reachable(settings, s)
    ensures SystemInv(settings, s)
  {
    var states, events :| IsRun(settings, states, events) && states[|events|] == s;
    RunSound(settings, states, events, |events|);
  }

  /** A kitchen with one table, and one with two, room for one order at a time. */
  const DEMO := Settings({1}, 1, 1, 1000, 10, true)
  const PAIR := Settings({1, 2}, 1, 1, 1000, 10, true)

  lemma OneSnapshot(store: Store, now: Millis)
    requires store.tables.Keys == {1}
    ensures AllSnapshots(store, now) == [Snapshot(store, 1, now)]
  {
    SortedSize(store.tables.Keys);
    var ids := SortedIds(store.tables.Keys);
    assert |ids| == 1 && ids[0] in ids;
  }

  lemma TwoSnapshots(store: Store, now: Millis)
    requires store.tables.Keys == {1, 2}
    ensures AllSnapshots(store, now) == [Snapshot(store, 1, now), Snapshot(store, 2, now)]
  {
    hide SortedIds, SnapshotsOf;
    SortedSize(store.tables.Keys);
    var ids := SortedIds(store.tables.Keys);
    assert |ids| == 2 && ids[0] in ids && ids[1] in ids;
  }

  /** A session opens the link and lists its snapshots. */
  lemma SessionOpens(d: Settings, s: System) returns (s': System)
    requires Reachable(d, s) && s.kitchen.main.Offline? && !s.wire.up
    ensures Reachable(d, s') && s'.wire.up && s'.wire.intact && s'.wire.pipe == s.wire.pipe
    ensures s'.wire.log == s.wire.log && s'.wire.clients == s.wire.clients
    ensures s'.kitchen == s.kitchen.(main := Announcing(AllSnapshots(s.kitchen.store, s.kitchen.now), false))
  {
    hide Reachable, AllSnapshots;
    ReachNext(d, s, KitchenActs(Connect, false));
    s' := Happens(d, s, KitchenActs(Connect, false));
    ReachNext(d, s', KitchenActs(AnnounceStart, false));
    s' := Happens(d, s', KitchenActs(AnnounceStart, false));
  }

  /** It publishes the next of them. */
  lemma SessionPublishes(d: Settings, s: System) returns (s': System)
    requires Reachable(d, s) && s.kitchen.main.Announcing? && s.kitchen.main.todo != [] && s.wire.up
    ensures Reachable(d, s') && s'.wire.up && s'.wire.intact == s.wire.intact
    ensures s'.wire.pipe == s.wire.pipe + [s.kitchen.main.todo[0]]
    ensures s'.wire.log == s.wire.log && s'.wire.clients == s.wire.clients
    ensures s'.kitchen == s.kitchen.(main := Announcing(s.kitchen.main.todo[1..], true))
    ensures s.kitchen.main.todo[0].tableId in s.wire.touched ==> s.kitchen.main.todo[0].tableId in s'.wire.lagging
  {
    hide Reachable;
    ReachNext(d, s, KitchenActs(AnnounceNext, true));
    s' := Happens(d, s, KitchenActs(AnnounceNext, true));
  }

  /** It turns to its messages. */
  lemma SessionAnnounced(d: Settings, s: System) returns (s': System)
    requires Reachable(d, s) && s.kitchen.main.Announcing? && s.kitchen.main.todo == []
    ensures Reachable(d, s') && s' == s.(kitchen := s.kitchen.(main := Idle))
  {
    hide Reachable;
    ReachNext(d, s, KitchenActs(AnnounceDone, false));
    s' := Happens(d, s, KitchenActs(AnnounceDone, false));
  }

  lemma LinkDrops(d: Settings, s: System) returns (s': System)
    requires Reachable(d, s) && s.kitchen.main.Idle?
    ensures Reachable(d, s') && !s'.wire.up && s'.wire.pipe == [] && s'.kitchen == s.kitchen.(main := Offline)
  {
    hide Reachable;
    ReachNext(d, s, LinkActs(Cut));
    s' := Happens(d, s, LinkActs(Cut));
    ReachNext(d, s', KitchenActs(SessionEnd, false));
    s' := Happens(d, s', KitchenActs(SessionEnd, false));
  }

  /** The consumer is waiting for messages, every dish has been served, the link is up. */
  ghost predicate AtRest(d: Settings, s: System) {
    && Reachable(d, s) && s.kitchen.main.Idle? && s.wire.up
    && UnservedTasks(s.kitchen) == {} && s.kitchen.orphans == {}
    && s.kitchen.store.tables.Keys == d.tables && d.maxOrdersPerTable > 0 && d.maxOrdersGlobal > 0
  }

  lemma NoneCookingAtRest(d: Settings, s: System)
    requires AtRest(d, s)
    ensures forall t :: t in d.tables ==> CookingCount(s.kitchen.store, t) == 0
    ensures TotalCooking(s.kitchen.store) == 0
  {
    hide Reachable, Inv, ReplicationInv;
    ReachableSound(d, s);
    forall t | t in d.tables ensures CookingCount(s.kitchen.store, t) == 0 {
      NothingCooking(d, s.kitchen, t);
    }
    SumZero(s.kitchen.store, SortedIds(s.kitchen.store.tables.Keys));
  }

  function Command(t: TableId, key: string): OrderPlaced {
    OrderPlaced(key, "client", t, "Ramen")
  }

  /** An order with a new key is accepted where there is room. */
  lemma RoomForOrder(d: Settings, k: Kitchen, t: TableId, key: string, delay: nat)
    requires t in k.store.tables && key !in k.store.seen
    requires CookingCount(k.store, t) < d.maxOrdersPerTable && TotalCooking(k.store) < d.maxOrdersGlobal
    ensures var order := NewOrder(Command(t, key), k.nextOrder, delay, k.now);
            TryAccept(d, k.store, Command(t, key), t, k.nextOrder, delay, k.now)
              == Accepted(order, AddOrder(Remember(k.store, key), t, order))
  {
  }

  lemma OrderAccepted(d: Settings, s: System, t: TableId, key: string, delay: nat, handed: bool)
    requires s.kitchen.main.Idle? && (handed ==> s.wire.up)
    requires t in s.kitchen.store.tables && key !in s.kitchen.store.seen
    requires CookingCount(s.kitchen.store, t) < d.maxOrdersPerTable
    requires TotalCooking(s.kitchen.store) < d.maxOrdersGlobal
    ensures var e := KitchenActs(Receive(t, Command(t, key), delay), handed);
            var order := NewOrder(Command(t, key), s.kitchen.nextOrder, delay, s.kitchen.now);
            && CanHappen(d, s, e)
            && Happens(d, s, e).kitchen
               == Commit(s.kitchen, Command(t, key), order, AddOrder(Remember(s.kitchen.store, key), t, order))
  {
    hide TotalCooking, CookingCount, AddOrder, Remember, NextWire, EffectOf, Commit, TryAccept;
    RoomForOrder(d, s.kitchen, t, key, delay);
  }

  /** And its publish is taken or lost. */
  lemma OrderCommits(d: Settings, s: System, t: TableId, key: string, delay: nat, handed: bool) returns (s': System)
    requires Reachable(d, s) && s.kitchen.main.Idle? && s.wire.up
    requires t in s.kitchen.store.tables && key !in s.kitchen.store.seen
    requires CookingCount(s.kitchen.store, t) < d.maxOrdersPerTable
    requires TotalCooking(s.kitchen.store) < d.maxOrdersGlobal
    ensures CanHappen(d, s, KitchenActs(Receive(t, Command(t, key), delay), handed))
    ensures Reachable(d, s') && s' == Happens(d, s, KitchenActs(Receive(t, Command(t, key), delay), handed))
    ensures var order := NewOrder(Command(t, key), s.kitchen.nextOrder, delay, s.kitchen.now);
            s'.kitchen == Commit(s.kitchen, Command(t, key), order,
                                 AddOrder(Remember(s.kitchen.store, key), t, order))
    ensures s'.wire.up && s'.wire.clients == s.wire.clients && s'.wire.log == s.wire.log
    ensures !handed ==> s'.wire.pipe == s.wire.pipe
  {
    hide Reachable, SystemInv, CanHappen, Happens, AddOrder, Remember, Commit, TotalCooking, CookingCount;
    var e := KitchenActs(Receive(t, Command(t, key), delay), handed);
    OrderAccepted(d, s, t, key, delay, handed);
    ReachNext(d, s, e);
    s' := Happens(d, s, e);
    ReachableSound(d, s);
    KitchenLeavesWindows(d, s, e);
    EventStream(d, s, e);
    StaysInSession(d, s, e);
    PipeOf(s.wire);
    PipeOf(s'.wire);
  }

  /** At rest there is room. */
  lemma OrderArrives(d: Settings, s: System, t: TableId, key: string, handed: bool) returns (s': System)
    requires AtRest(d, s) && t in d.tables && key !in s.kitchen.store.seen
    ensures CanHappen(d, s, KitchenActs(Receive(t, Command(t, key), 0), handed))
    ensures Reachable(d, s') && s' == Happens(d, s, KitchenActs(Receive(t, Command(t, key), 0), handed))
    ensures var order := NewOrder(Command(t, key), s.kitchen.nextOrder, 0, s.kitchen.now);
            s'.kitchen == Commit(s.kitchen, Command(t, key), order,
                                 AddOrder(Remember(s.kitchen.store, key), t, order))
    ensures s'.kitchen.store.tables.Keys == d.tables && s'.kitchen.orphans == {}
    ensures s'.kitchen.tasks == s.kitchen.tasks
    ensures s'.wire.up && s'.wire.clients == s.wire.clients && s'.wire.log == s.wire.log
    ensures !handed ==> s'.wire.pipe == s.wire.pipe
  {
    NoneCookingAtRest(d, s);
    hide Reachable, CanHappen, Happens, AddOrder, Remember, Commit, TotalCooking, CookingCount;
    s' := OrderCommits(d, s, t, key, 0, handed);
    TablesAfterOrder(s.kitchen, Command(t, key), NewOrder(Command(t, key), s.kitchen.nextOrder, 0, s.kitchen.now));
  }

  lemma PipeOf(w: Wire)
    ensures w.pipe == Stream(w)[|w.log|..]
  {
  }

  lemma TablesAfterOrder(k: Kitchen, cmd: OrderPlaced, order: Order)
    requires cmd.tableId in k.store.tables
    ensures var k' := Commit(k, cmd, order, AddOrder(Remember(k.store, cmd.clientOrderId), cmd.tableId, order));
            && k'.store.tables.Keys == k.store.tables.Keys
            && k'.orphans == k.orphans && k'.tasks == k.tasks
  {
  }

  lemma CookStarts(d: Settings, s: System) returns (s': System, i: nat)
    requires Reachable(d, s) && s.kitchen.main.Accepting?
    ensures Reachable(d, s') && s'.kitchen.main.Idle? && s'.kitchen.store == s.kitchen.store
    ensures s'.wire == s.wire && i == s.kitchen.nextTask && i !in s.kitchen.tasks
    ensures s'.kitchen == s.kitchen.(main := Idle, tasks := s'.kitchen.tasks, nextTask := i + 1)
    ensures var order := s.kitchen.main.order;
            s'.kitchen.tasks == s.kitchen.tasks[i := CookTask(s.kitchen.main.tableId, order.orderId, order.cookSeconds,
                                                              Sleeping(s.kitchen.now + 1000 * order.cookSeconds))]
  {
    hide Reachable;
    NextTaskIsNew(d, s);
    i := s.kitchen.nextTask;
    ReachNext(d, s, KitchenActs(SpawnCook, false));
    s' := Happens(d, s, KitchenActs(SpawnCook, false));
    ReachNext(d, s', KitchenActs(TaskStart(i), false));
    s' := Happens(d, s', KitchenActs(TaskStart(i), false));
  }

  lemma NextTaskIsNew(d: Settings, s: System)
    requires Reachable(d, s)
    ensures s.kitchen.nextTask !in s.kitchen.tasks
  {
    ReachableSound(d, s);
    assert Numbered(s.kitchen);
  }

  /** A dish of the table whose sleep is over. */
  predicate DishDue(k: Kitchen, i: nat, t: TableId) {
    i in k.tasks && k.tasks[i].tableId == t && k.tasks[i].phase.Sleeping? && k.tasks[i].phase.due <= k.now
  }

  /** Serving it is enabled, and it is a publish of the table's next version. */
  lemma CookCanServe(d: Settings, s: System, i: nat, t: TableId)
    requires Reachable(d, s) && DishDue(s.kitchen, i, t) && AtAwait(s.kitchen.main)
    ensures t in s.kitchen.store.tables && t in s.kitchen.ledger
    ensures FinishOrder(s.kitchen.store, t, s.kitchen.tasks[i].orderId, Served, s.kitchen.now)
      == Some(s.kitchen.store.(tables := s.kitchen.store.tables[t := TableRecord(s.kitchen.store.tables[t].version + 1,
           Trim(Mark(s.kitchen.ledger[t], s.kitchen.tasks[i].orderId, Served, s.kitchen.now),
                s.kitchen.store.maxServedHistory))]))
  {
    hide Reachable, FinishOrder, Trim, Mark, Windowed, Capped, Punctual, Numbered, OneTaskPerDish, AllAttended,
         MainSound, ReplicationInv;
    ReachableSound(d, s);
    assert TaskMatches(s.kitchen, s.kitchen.tasks[i]);
    WakeFinishes(d, s.kitchen, i);
  }

  /** The dish of task `i`, at table `t`, has been served, and its publish taken or lost. */
  ghost predicate JustServed(s: System, s': System, i: nat, t: TableId, handed: bool) {
    var k, k' := s.kitchen, s'.kitchen;
    && i in k.tasks && t in k.store.tables && t in k.ledger && t in k'.store.tables
    && k'.main == k.main && k'.orphans == k.orphans && k'.now == k.now
    && k'.tasks == k.tasks[i := k.tasks[i].(phase := Publishing)]
    && k'.store.seen == k.store.seen && k'.store.epoch == k.store.epoch
    && k'.store.tables.Keys == k.store.tables.Keys
    && k'.store.tables[t].version == k.store.tables[t].version + 1
    && k'.ledger == k.ledger[t := Mark(k.ledger[t], k.tasks[i].orderId, Served, k.now)]
    && k'.nextOrder == k.nextOrder
    && s'.wire.up == s.wire.up && s'.wire.log == s.wire.log && s'.wire.clients == s.wire.clients
    && t in s'.wire.touched
    && (handed ==> s'.wire.intact == s.wire.intact && |s'.wire.pipe| == |s.wire.pipe| + 1)
    && (!handed ==> s'.wire.pipe == s.wire.pipe)
  }

  lemma CookServes(d: Settings, s: System, i: nat, t: TableId, handed: bool) returns (s': System)
    requires Reachable(d, s) && DishDue(s.kitchen, i, t) && AtAwait(s.kitchen.main) && (handed ==> s.wire.up)
    ensures Reachable(d, s') && JustServed(s, s', i, t, handed)
  {
    hide Reachable, FinishOrder, Trim, Mark, Happens, JustServed;
    CookCanServe(d, s, i, t);
    LedgerKeys(d, s);
    var e := KitchenActs(TaskWake(i), handed);
    WakeHappens(d, s, i, t, handed);
    ReachNext(d, s, e);
    s' := Happens(d, s, e);
  }

  lemma WakeHappens(d: Settings, s: System, i: nat, t: TableId, handed: bool)
    requires CanHappen(d, s, KitchenActs(TaskWake(i), handed)) && s.kitchen.tasks[i].tableId == t
    requires t in s.kitchen.store.tables && t in s.kitchen.ledger
    requires var k := s.kitchen;
             var done := FinishOrder(k.store, t, k.tasks[i].orderId, Served, k.now);
             && done.Some? && t in done.value.tables
             && done.value == k.store.(tables := k.store.tables[t := done.value.tables[t]])
             && done.value.tables[t].version == k.store.tables[t].version + 1
    ensures JustServed(s, Happens(d, s, KitchenActs(TaskWake(i), handed)), i, t, handed)
  {
    hide FinishOrder, Mark;
  }

  lemma LedgerKeys(d: Settings, s: System)
    requires Reachable(d, s)
    ensures s.kitchen.ledger.Keys == s.kitchen.store.tables.Keys == d.tables
  {
    ReachableSound(d, s);
  }

  /** Its publish returns and the task is gone. */
  lemma CookReturns(d: Settings, s: System, i: nat) returns (s': System)
    requires Reachable(d, s) && i in s.kitchen.tasks && s.kitchen.tasks[i].phase.Publishing?
    requires AtAwait(s.kitchen.main)
    ensures Reachable(d, s') && s' == s.(kitchen := s.kitchen.(tasks := s.kitchen.tasks - {i}))
  {
    hide Reachable;
    ReachNext(d, s, KitchenActs(TaskReturn(i), false));
    s' := Happens(d, s, KitchenActs(TaskReturn(i), false));
  }

  /** The next message in the pipe arrives. */
  lemma NextArrives(d: Settings, s: System) returns (s': System)
    requires Reachable(d, s) && s.wire.pipe != [] && s.wire.up
    ensures Reachable(d, s')
    ensures s' == s.(wire := s.wire.(log := s.wire.log + [s.wire.pipe[0]], pipe := s.wire.pipe[1..]))
  {
    hide Reachable;
    ReachNext(d, s, LinkActs(Arrive));
    s' := Happens(d, s, LinkActs(Arrive));
  }

  /** The whole pipe arrives. */
  lemma {:induction false} AllArrive(d: Settings, s: System) returns (s': System)
    requires Reachable(d, s) && s.wire.up
    ensures Reachable(d, s') && s' == s.(wire := s.wire.(log := s.wire.log + s.wire.pipe, pipe := []))
    decreases |s.wire.pipe|
  {
    hide Reachable;
    if s.wire.pipe == [] {
      s' := s;
    } else {
      s' := NextArrives(d, s);
      assert s.wire.log + s.wire.pipe == s'.wire.log + s'.wire.pipe;
      s' := AllArrive(d, s');
    }
  }

  lemma StartReachable(d: Settings)
    ensures Reachable(d, Start(d, 0))
  {
    var none: seq<Event> := [];
    assert IsRun(d, [Start(d, 0)], none) && [Start(d, 0)][|none|] == Start(d, 0);
  }

  /** The kitchen has started and announced its one empty table. */
  lemma FirstSession(d: Settings) returns (s: System)
    requires d.tables == {1} && d.maxOrdersPerTable > 0 && d.maxOrdersGlobal > 0
    ensures AtRest(d, s) && s.kitchen == Fresh(d, 0, 0).(main := Idle)
    ensures s.wire.intact && s.wire.log == [] && s.wire.clients == map[]
    ensures s.wire.pipe == [Snapshot(s.kitchen.store, 1, 0)]
  {
    hide Reachable, AllSnapshots;
    StartReachable(d);
    s := Start(d, 0);
    OneSnapshot(s.kitchen.store, 0);
    s := SessionOpens(d, s);
    s := SessionPublishes(d, s);
    s := SessionAnnounced(d, s);
    assert UnservedTasks(s.kitchen) == {};
  }

  /** A window that has had the announced snapshot live, or is still owed it. */
  lemma WindowOpens() returns (s: System)
    ensures AtRest(DEMO, s) && s.kitchen == Fresh(DEMO, 0, 0).(main := Idle) && s.wire.intact && s.wire.pipe == []
    ensures s.wire.log == [Snapshot(s.kitchen.store, 1, 0)]
    ensures s.wire.clients == map[7 := Client(map[], true, 1, 1, map[1 := 0])]
  {
    hide Reachable;
    s := FirstSession(DEMO);
    s := AllArrive(DEMO, s);
    ReachNext(DEMO, s, LinkActs(Subscribe(7)));
    OneSlot(s.wire.log[0]);
    s := Happens(DEMO, s, LinkActs(Subscribe(7)));
  }

  lemma OneSlot(m: TableState)
    requires m.tableId == 1
    ensures Slots([m]) == map[1 := 0]
  {
    assert LastIndex([m], 1) == Some(0);
    assert [m][0] in [m];
  }

  lemma RetainedComes(s: System) returns (s': System)
    requires Reachable(DEMO, s) && LinkEnabled(s.wire, Retained(7, 1))
    ensures Reachable(DEMO, s') && s'.kitchen == s.kitchen && s'.wire == NextLink(s.wire, Retained(7, 1))
  {
    ReachNext(DEMO, s, LinkActs(Retained(7, 1)));
    s' := Happens(DEMO, s, LinkActs(Retained(7, 1)));
  }

  // --- a slot falls behind --------------------------------------------------------------------

  /** Nothing is lost, nothing is left to send, and yet the slot of table 2 is out of date. */
  ghost predicate FallenBehind(s: System) {
    && s.wire.intact && Todo(s.kitchen) == [] && s.wire.pipe == []
    && !SlotCurrent(Src(s.kitchen), s.wire.log, 2)
  }

  /** The two tables are announced in a first session, and an order for the second is cooking. */
  lemma SecondTableCooks() returns (s: System, i: nat)
    ensures Reachable(PAIR, s) && s.kitchen.main.Idle? && s.kitchen.store.tables.Keys == {1, 2}
    ensures DishDue(s.kitchen, i, 2)
  {
    hide Reachable, AllSnapshots;
    StartReachable(PAIR);
    s := Start(PAIR, 0);
    TwoSnapshots(s.kitchen.store, 0);
    s := SessionOpens(PAIR, s);
    s := SessionPublishes(PAIR, s);
    s := SessionPublishes(PAIR, s);
    s := SessionAnnounced(PAIR, s);
    assert UnservedTasks(s.kitchen) == {};
    s := OrderArrives(PAIR, s, 2, "first", true);
    s, i := CookStarts(PAIR, s);
  }

  /** The condition in SlotsHeal is needed. In the next session's announce the snapshot of table
      1 is handed over; at that await the cook of table 2 serves; then the snapshot listed for
      table 2 follows the newer one. */
  lemma SlotCanFallBehind()
    ensures exists s :: Reachable(PAIR, s) && FallenBehind(s)
  {
    hide Reachable, AllSnapshots;
    var i: nat;
    var s: System;
    s, i := SecondTableCooks();
    s := LinkDrops(PAIR, s);
    TwoSnapshots(s.kitchen.store, s.kitchen.now);
    s := SessionOpens(PAIR, s);
    s := SessionPublishes(PAIR, s);
    s := CookServes(PAIR, s, i, 2, true);
    s := SessionPublishes(PAIR, s);
    s := SessionAnnounced(PAIR, s);
    s := AllArrive(PAIR, s);
    LaggingSlot(s);
    assert FallenBehind(s);
  }

  lemma LaggingSlot(s: System)
    requires Reachable(PAIR, s) && s.wire.intact && Todo(s.kitchen) == [] && s.wire.pipe == []
    requires 2 in s.wire.lagging
    ensures !SlotCurrent(Src(s.kitchen), s.wire.log, 2)
  {
    ReachableSound(PAIR, s);
    hide Reachable, StaffInv, ReplicationInv;
    SlotExactly(Src(s.kitchen), s.wire, 2);
  }

  // --- a window goes back ---------------------------------------------------------------------

  /** Nothing is lost, nothing is left to send or to deliver, and yet window 7 shows table 1 as
      it was in an earlier generation. */
  ghost predicate TakenBack(s: System) {
    && s.wire.intact && Todo(s.kitchen) == []
    && Drained(s.wire, 7) && s.wire.clients[7].owed == map[]
    && 1 in s.wire.clients[7].view && s.wire.clients[7].view[1].epoch < s.kitchen.store.epoch
  }

  /** A reset of a kitchen at rest cancels nothing and wipes the store. */
  lemma ResetBegins(s: System) returns (s': System)
    requires AtRest(DEMO, s) && s.kitchen.tasks == map[]
    ensures Reachable(DEMO, s') && s'.wire.up && s'.wire.pipe == s.wire.pipe && s'.wire.intact == s.wire.intact
    ensures s'.wire.log == s.wire.log && s'.wire.clients == s.wire.clients
    ensures s'.kitchen.store.epoch == s.kitchen.store.epoch + 1 && s'.kitchen.store.tables.Keys == {1}
    ensures s'.kitchen.main == Resetting([Snapshot(s'.kitchen.store, 1, s'.kitchen.now)], false)
  {
    hide Reachable, AllSnapshots;
    ReachNext(DEMO, s, KitchenActs(ResetBegin, false));
    s' := Happens(DEMO, s, KitchenActs(ResetBegin, false));
    ReachNext(DEMO, s', KitchenActs(ResetCommit, false));
    s' := Happens(DEMO, s', KitchenActs(ResetCommit, false));
    OneSnapshot(s'.kitchen.store, s'.kitchen.now);
  }

  /** And then it publishes the emptied table. */
  lemma ResetPublishes(s: System) returns (s': System)
    requires Reachable(DEMO, s) && s.wire.up && s.kitchen.main.Resetting? && |s.kitchen.main.todo| == 1
    ensures Reachable(DEMO, s') && s'.kitchen == s.kitchen.(main := Idle)
    ensures s'.wire.up && s'.wire.log == s.wire.log && s'.wire.clients == s.wire.clients
    ensures s'.wire.pipe == s.wire.pipe + s.kitchen.main.todo && s'.wire.intact == s.wire.intact
  {
    hide Reachable;
    ReachNext(DEMO, s, KitchenActs(ResetNext, true));
    s' := Happens(DEMO, s, KitchenActs(ResetNext, true));
    ReachNext(DEMO, s', KitchenActs(ResetDone, false));
    s' := Happens(DEMO, s', KitchenActs(ResetDone, false));
  }

  /** The condition in WindowsConverge is needed: a retained message delivered after the live
      one of a later generation takes the window back, and nothing comes to correct it. */
  lemma WindowCanGoBack()
    ensures exists s :: Reachable(DEMO, s) && TakenBack(s)
  {
    hide Reachable;
    var s := WindowOpens();
    s := ResetBegins(s);
    s := ResetPublishes(s);
    s := AllArrive(DEMO, s);
    ReachNext(DEMO, s, LinkActs(Deliver(7)));
    s := Happens(DEMO, s, LinkActs(Deliver(7)));
    s := RetainedComes(s);
    assert TakenBack(s);
  }

  // --- a lost publish stays lost --------------------------------------------------------------

  /** The session is up, no task is left, nothing is left to send or to deliver, and yet window 7
      does not show table 1 as the store holds it. */
  ghost predicate LeftBehind(s: System) {
    && InSession(s) && s.kitchen.main.Idle? && s.kitchen.tasks == map[]
    && Drained(s.wire, 7) && s.wire.clients[7].owed == map[]
    && !ShowsTable(Src(s.kitchen), s.wire, 7, 1)
  }

  lemma WindowShowsEmpty() returns (s: System)
    ensures AtRest(DEMO, s) && s.kitchen.tasks == map[] && s.kitchen.store.seen == [] && s.wire.pipe == []
    ensures |s.wire.log| == 1 && 7 in s.wire.clients && 1 in s.wire.clients[7].view
    ensures s.wire.clients[7].subscribed && s.wire.clients[7].cursor == 1 && s.wire.clients[7].owed == map[]
    ensures s.wire.clients[7].view[1].version == 0
  {
    hide Reachable;
    s := WindowOpens();
    s := RetainedComes(s);
  }

  /** Losing nothing is needed too: when the publish of a served dish fails on a session that
      stays up every window is left behind, with no cook to publish again and no resync. */
  lemma PublishCanStayLost()
    ensures exists s :: Reachable(DEMO, s) && LeftBehind(s)
  {
    hide Reachable, CanHappen, Happens, AddOrder, Remember, FinishOrder;
    var s := WindowShowsEmpty();
    s := OrderArrives(DEMO, s, 1, "first", false);
    var i: nat;
    s, i := CookStarts(DEMO, s);
    s := CookServes(DEMO, s, i, 1, false);
    s := CookReturns(DEMO, s, i);
    assert LeftBehind(s);
  }

  // --- an order without a cook ----------------------------------------------------------------

  /** An order is cooking in the store, its publish having raised, and there is no task at all. */
  ghost predicate Orphaned(s: System) {
    && s.kitchen.main.Idle? && s.kitchen.tasks == map[] && 1 in s.kitchen.store.tables
    && exists o :: o in s.kitchen.store.tables[1].orders && o.status == Cooking && o.orderId in s.kitchen.orphans
  }

  lemma OrderCanBeOrphaned()
    ensures exists s :: Reachable(DEMO, s) && Orphaned(s)
  {
    hide Reachable;
    var s := FirstSession(DEMO);
    s := OrderArrives(DEMO, s, 1, "first", false);
    OrderInHand(s);
    ReachNext(DEMO, s, KitchenActs(AcceptRaise, false));
    s := Happens(DEMO, s, KitchenActs(AcceptRaise, false));
    assert Orphaned(s);
  }

  lemma OrderInHand(s: System)
    requires Reachable(DEMO, s) && s.kitchen.main.Accepting? && s.kitchen.main.tableId == 1
    ensures 1 in s.kitchen.store.tables && s.kitchen.main.order in s.kitchen.store.tables[1].orders
    ensures s.kitchen.main.order.status == Cooking
  {
    ReachableSound(DEMO, s);
    var k := s.kitchen;
    assert MainSound(k);
    DropKeepsCooking(k.ledger[1], k.main.order.orderId, Excess(k.ledger[1], k.store.maxServedHistory));
  }

  // --- more tasks than orders -----------------------------------------------------------------

  /** A task that has served and is still publishing makes room for another order, and so for a
      task beyond every limit on orders. */
  lemma TasksCanExceedLimits()
    ensures exists s :: Reachable(DEMO, s) && |s.kitchen.tasks| > DEMO.maxOrdersGlobal
  {
    hide Reachable;
    var s := FirstSession(DEMO);
    s := AllArrive(DEMO, s);
    s := OrderArrives(DEMO, s, 1, "first", false);
    FirstKeySeen(s);
    var i: nat;
    s, i := CookStarts(DEMO, s);
    s := CookServes(DEMO, s, i, 1, false);
    assert UnservedTasks(s.kitchen) == {};
    s := OrderArrives(DEMO, s, 1, "second", false);
    var j: nat;
    s, j := CookStarts(DEMO, s);
    TwoTasks(s.kitchen.tasks, i, j);
  }

  lemma FirstKeySeen(s: System)
    requires s.kitchen.store.seen == Remember(Fresh(DEMO, 0, 0).store, "first").seen
    ensures "second" !in s.kitchen.store.seen
  {
    assert Remember(Fresh(DEMO, 0, 0).store, "first").seen == ["first"];
  }

  lemma TwoTasks(tasks: map<nat, CookTask>, i: nat, j: nat)
    requires i in tasks && j in tasks && i != j
    ensures |tasks| >= 2
  {
    assert {i, j} <= tasks.Keys;
    SubsetSize({i, j}, tasks.Keys);
  }

  // --- a dish evicted by its own finish -------------------------------------------------------

  /** One table, room for two orders, and a history of `limit`. */
  function Menu(limit: nat): Settings {
    Settings({1}, 2, 2, 1000, limit, true)
  }

  /** Serving the dish takes it out of its table's record altogether. */
  ghost predicate EvictsItself(d: Settings, s: System, i: nat) {
    && CanHappen(d, s, KitchenActs(TaskWake(i), false))
    && var c := s.kitchen.tasks[i];
       var s' := Happens(d, s, KitchenActs(TaskWake(i), false));
       && c.tableId in s.kitchen.store.tables && c.tableId in s'.kitchen.store.tables
       && Lookup(s.kitchen.store.tables[c.tableId].orders, c.orderId).Some?
       && Lookup(s'.kitchen.store.tables[c.tableId].orders, c.orderId) == None
  }

  /** A slow dish is cooking as task `i`, and `n` dishes ordered after it have been served. */
  ghost predicate SlowWaits(limit: nat, s: System, i: nat, n: nat) {
    && Reachable(Menu(limit), s) && s.kitchen.main.Idle? && s.wire.up
    && s.kitchen.now == 0 && i in s.kitchen.tasks && 1 in s.kitchen.ledger
    && (forall key :: key in s.kitchen.store.seen ==> |key| <= n)
    && var orders := s.kitchen.ledger[1];
       && |orders| == n + 1 && orders[0].status == Cooking
       && s.kitchen.tasks[i] == CookTask(1, orders[0].orderId, 1, Sleeping(1000))
       && forall j :: 0 < j <= n ==> IsFinished(orders[j])
  }

  lemma RecordOf(limit: nat, s: System)
    requires Reachable(Menu(limit), s)
    ensures s.kitchen.store.tables.Keys == {1} == s.kitchen.ledger.Keys
    ensures s.kitchen.store.maxServedHistory == limit
    ensures s.kitchen.store.tables[1].orders == Trim(s.kitchen.ledger[1], limit)
    ensures forall o :: o in s.kitchen.ledger[1] ==> o.orderId < s.kitchen.nextOrder
    ensures DistinctIds(s.kitchen.ledger[1])
  {
    hide Trim, Reachable, ReplicationInv, StaffInv, Windowed, Capped, Punctual, FinishedOrders;
    ReachableSound(Menu(limit), s);
    assert Increasing(s.kitchen.ledger[1], s.kitchen.nextOrder);
  }

  lemma OneCooking(limit: nat, s: System, i: nat, n: nat)
    requires SlowWaits(limit, s, i, n)
    ensures s.kitchen.store.tables.Keys == {1}
    ensures CookingCount(s.kitchen.store, 1) == 1 && TotalCooking(s.kitchen.store) == 1
  {
    hide Reachable, Trim, FinishedOrders, TotalCooking;
    RecordOf(limit, s);
    var orders := s.kitchen.ledger[1];
    TrimKeeps(orders, limit);
    NoneCooking(orders[1..]);
    OneTotal(s.kitchen.store);
  }

  lemma OneTotal(store: Store)
    requires store.tables.Keys == {1}
    ensures TotalCooking(store) == CookingCount(store, 1)
  {
    hide CookingCount, SortedIds;
    SortedSize(store.tables.Keys);
    var ids := SortedIds(store.tables.Keys);
    assert |ids| == 1 && ids[0] in ids && ids[1..] == [];
    assert SumCooking(store, ids) == CookingCount(store, 1) + SumCooking(store, ids[1..]);
  }

  lemma {:induction false} MarkLast(orders: seq<Order>, o: Order, at: Millis)
    requires forall x :: x in orders ==> x.orderId != o.orderId
    ensures Mark(orders + [o], o.orderId, Served, at) == orders + [Finish(o, Served, at)]
  {
    if orders == [] {
      assert orders + [o] == [o];
    } else {
      assert (orders + [o])[1..] == orders[1..] + [o];
      MarkLast(orders[1..], o, at);
    }
  }

  function Key(n: nat): string {
    seq(n, _ => 'k')
  }

  lemma KeysStayShort(store: Store, n: nat)
    requires forall key :: key in store.seen ==> |key| <= n
    ensures forall key :: key in Remember(store, Key(n + 1)).seen ==> |key| <= n + 1
  {
  }

  /** One more quick dish is ordered and served. */
  lemma QuickDish(limit: nat, s: System, i: nat, n: nat) returns (s': System)
    requires SlowWaits(limit, s, i, n)
    ensures SlowWaits(limit, s', i, n + 1)
  {
    hide Reachable, CookingCount, TotalCooking, CanHappen, Happens, Mark, Put, Trim, Remember;
    var d := Menu(limit);
    OneCooking(limit, s, i, n);
    KeysStayShort(s.kitchen.store, n);
    RecordOf(limit, s);
    var orders := s.kitchen.ledger[1];
    var o := NewOrder(Command(1, Key(n + 1)), s.kitchen.nextOrder, 0, 0);
    s' := OrderCommits(d, s, 1, Key(n + 1), 0, false);
    var j: nat;
    s', j := CookStarts(d, s');
    s' := CookServes(d, s', j, 1, false);
    MarkLast(orders, o, 0);
    s' := CookReturns(d, s', j);
  }

  lemma SlowDish(limit: nat) returns (s: System, i: nat)
    ensures SlowWaits(limit, s, i, 0)
  {
    hide Reachable, CanHappen, Happens, Trim, Put;
    var d := Menu(limit);
    s := FirstSession(d);
    NoneCookingAtRest(d, s);
    s := OrderCommits(d, s, 1, "", 1, false);
    s, i := CookStarts(d, s);
  }

  lemma {:induction false} QuickDishes(limit: nat, n: nat) returns (s: System, i: nat)
    ensures SlowWaits(limit, s, i, n)
  {
    hide SlowWaits;
    if n == 0 {
      s, i := SlowDish(limit);
    } else {
      s, i := QuickDishes(limit, n - 1);
      s := QuickDish(limit, s, i, n - 1);
    }
  }

  lemma SlowIsEvicted(limit: nat, s: System, i: nat)
    requires Reachable(Menu(limit), s) && s.kitchen.main.Idle? && DishDue(s.kitchen, i, 1)
    requires 1 in s.kitchen.ledger && |s.kitchen.ledger[1]| == limit + 1 && DistinctIds(s.kitchen.ledger[1])
    requires s.kitchen.ledger[1][0].status == Cooking
    requires s.kitchen.tasks[i].orderId == s.kitchen.ledger[1][0].orderId
    requires forall j :: 0 < j <= limit ==> IsFinished(s.kitchen.ledger[1][j])
    ensures EvictsItself(Menu(limit), s, i)
  {
    hide Reachable, FinishOrder, Mark, Trim, Lookup;
    CookCanServe(Menu(limit), s, i, 1);
    RecordOf(limit, s);
    SlowestGoes(s.kitchen.ledger[1], s.kitchen.now, limit);
  }

  lemma SlowestGoes(orders: seq<Order>, at: Millis, limit: nat)
    requires |orders| == limit + 1 && DistinctIds(orders) && orders[0].status == Cooking
    requires forall j :: 0 < j <= limit ==> IsFinished(orders[j])
    ensures Lookup(Trim(orders, limit), orders[0].orderId).Some?
    ensures Lookup(Trim(Mark(orders, orders[0].orderId, Served, at), limit), orders[0].orderId) == None
  {
    hide Mark, DropFinished;
    AllFinished(orders[1..]);
    FinishShowsExactly(orders, orders[0].orderId, Served, at, limit);
    DropKeepsCooking(orders, orders[0].orderId, Excess(orders, limit));
  }

  /** Under every history limit, the default of 10 included, the kitchen can come to serve a dish
      that its own finish evicts. */
  lemma FinishCanEvictItself(limit: nat)
    ensures exists s, i :: Reachable(Menu(limit), s) && EvictsItself(Menu(limit), s, i)
  {
    hide Reachable;
    var d := Menu(limit);
    var s: System;
    var i: nat;
    s, i := QuickDishes(limit, limit);
    RecordOf(limit, s);
    ReachNext(d, s, KitchenActs(Tick(1000), false));
    s := Happens(d, s, KitchenActs(Tick(1000), false));
    SlowIsEvicted(limit, s, i);
  }
}
