/** Kitchen, link, broker and windows together, and the runs they can make. */
module RestaurantSystem {
  import opened Models
  import opened OrderLists
  import opened StoreModel
  import opened KitchenModel
  import opened KitchenInvariants
  import opened KitchenProofs
  import opened Replication
  import opened ReplicationProofs

  // --- the kitchen is a versioned source ----------------------------------------------------

  function Src(k: Kitchen): Source {
    Source(k.store.epoch, k.store.tables, Todo(k))
  }

  function FinishEffect(k: Kitchen, i: nat, status: OrderStatus): Effect
    requires i in k.tasks
  {
    var c := k.tasks[i];
    match FinishOrder(k.store, c.tableId, c.orderId, status, k.now)
    case None => Quiet
    case Some(store) => if c.tableId in store.tables then Bump(c.tableId, store.tables[c.tableId], k.now) else Quiet
  }

  /** What an action of the kitchen looks like from outside. */
  function EffectOf(settings: Settings, k: Kitchen, a: Action): Effect
    requires Enabled(settings, k, a)
  {
    match a
    case AnnounceStart => ListAll(AllSnapshots(k.store, k.now))
    case AnnounceNext => Replay
    case ResetNext => Replay
    case Receive(topicTable, cmd, delay) =>
      (match TryAccept(settings, k.store, cmd, topicTable, k.nextOrder, delay, k.now)
       case Accepted(_, store) =>
         if cmd.tableId in store.tables then Bump(cmd.tableId, store.tables[cmd.tableId], k.now) else Quiet
       case _ => Quiet)
    case TaskWake(i) => FinishEffect(k, i, Served)
    case TaskRaise(i) => FinishEffect(k, i, Failed)
    case ResetCommit => Renew(AllSnapshots(Reset(k.store, k.store.epoch + 1), k.now))
    case ResetRaise => Abandon
    case Stop => Abandon
    case Restart => Relaunch
    case _ => Quiet
  }

  /** An effect is one the source could have, leads where the kitchen goes, and publishes what
      the kitchen hands over. */
  ghost predicate Explains(settings: Settings, k: Kitchen, a: Action)
    requires Enabled(settings, k, a)
  {
    var e := EffectOf(settings, k, a);
    && Possible(Src(k), e)
    && NextSource(Src(k), e) == Src(Next(settings, k, a))
    && Emission(Src(k), e) == Sent(settings, k, a)
  }

  lemma SnapshotsComplete(store: Store, now: Millis, todo: seq<TableState>)
    ensures Complete(Source(store.epoch, store.tables, todo), AllSnapshots(store, now))
  {
    hide SortedIds, SnapshotsOf;
    var ids := SortedIds(store.tables.Keys);
    var all := AllSnapshots(store, now);
    forall t | t in store.tables ensures Mentions(all, t) {
      var i :| 0 <= i < |ids| && ids[i] == t;
      assert all[i] in all && all[i].tableId == t;
    }
  }

  lemma ReceiveExplained(settings: Settings, k: Kitchen, a: Action)
    requires Inv(settings, k) && Enabled(settings, k, a) && a.Receive?
    ensures Explains(settings, k, a)
  {
    hide TotalCooking, Faithful, Capped, Windowed, Punctual, StaffInv, Trim, Put;
    if Accepts(settings, k, a.topicTable, a.cmd, a.delay) {
      AcceptOutcome(settings, k, a.topicTable, a.cmd, a.delay);
      CommitPlaces(settings, k, a.cmd, a.delay);
      hide Inv, TryAccept, AddOrder, Remember;
    }
  }

  /** A finish that raises one table's version by one is a bump. */
  lemma FinishExplained(settings: Settings, k: Kitchen, i: nat, record: TableRecord)
    requires Enabled(settings, k, TaskWake(i)) && k.tasks[i].tableId in k.store.tables
    requires FinishOrder(k.store, k.tasks[i].tableId, k.tasks[i].orderId, Served, k.now)
          == Some(k.store.(tables := k.store.tables[k.tasks[i].tableId := record]))
    requires record.version == k.store.tables[k.tasks[i].tableId].version + 1
    ensures Explains(settings, k, TaskWake(i))
  {
    hide FinishOrder, Mark;
  }

  lemma WakeExplained(settings: Settings, k: Kitchen, i: nat)
    requires Inv(settings, k) && Enabled(settings, k, TaskWake(i))
    ensures Explains(settings, k, TaskWake(i))
  {
    hide Explains, FinishOrder, TaskMatches, Trim, Mark, Capped, Windowed, Punctual, Increasing, Numbered,
         OneTaskPerDish, AllAttended, MainSound;
    var c := k.tasks[i];
    var t := c.tableId;
    assert TaskMatches(k, c);
    WakeFinishes(settings, k, i);
    FinishExplained(settings, k, i, TableRecord(k.store.tables[t].version + 1,
      Trim(Mark(k.ledger[t], c.orderId, Served, k.now), k.store.maxServedHistory)));
  }

  lemma RaiseExplained(settings: Settings, k: Kitchen, i: nat)
    requires Inv(settings, k) && Enabled(settings, k, TaskRaise(i))
    ensures Explains(settings, k, TaskRaise(i))
  {
    RaiseIsHarmless(settings, k, i);
    hide Inv;
  }

  lemma ListingExplained(settings: Settings, k: Kitchen, a: Action)
    requires Enabled(settings, k, a) && (a.AnnounceStart? || a.ResetCommit?)
    ensures Explains(settings, k, a)
  {
    hide AllSnapshots;
    if a.AnnounceStart? {
      SnapshotsComplete(k.store, k.now, []);
    } else {
      SnapshotsComplete(Reset(k.store, k.store.epoch + 1), k.now, []);
    }
  }

  lemma RestExplained(settings: Settings, k: Kitchen, a: Action)
    requires Enabled(settings, k, a)
    requires !a.Receive? && !a.TaskWake? && !a.TaskRaise? && !a.AnnounceStart? && !a.ResetCommit?
    requires k.store.tables.Keys == settings.tables
    ensures Explains(settings, k, a)
  {
    hide TryAccept, FinishOrder, AllSnapshots;
  }

  /** Every kitchen action is a step of a versioned source. */
  lemma KitchenExplained(settings: Settings, k: Kitchen, a: Action)
    requires Inv(settings, k) && Enabled(settings, k, a)
    ensures Explains(settings, k, a)
  {
    if a.Receive? {
      ReceiveExplained(settings, k, a);
    } else if a.TaskWake? {
      WakeExplained(settings, k, a.task);
    } else if a.TaskRaise? {
      RaiseExplained(settings, k, a.task);
    } else if a.AnnounceStart? || a.ResetCommit? {
      ListingExplained(settings, k, a);
    } else {
      RestExplained(settings, k, a);
    }
  }

  // --- the whole system ---------------------------------------------------------------------

  datatype System = System(kitchen: Kitchen, wire: Wire)

  /** `handed` says whether a publish, if the action makes one, reached a link that is up. */
  datatype Event =
    | KitchenActs(action: Action, handed: bool)
    | LinkActs(link: LinkAction)

  function Start(settings: Settings, now: Millis): System {
    System(Fresh(settings, 0, now), Wire(false, [], [], {}, false, 0, {}, {}, map[]))
  }

  /** A session starts by opening the link and ends because the link is gone. */
  predicate CanHappen(settings: Settings, s: System, e: Event) {
    match e
    case KitchenActs(a, handed) =>
      && Enabled(settings, s.kitchen, a)
      && (handed ==> s.wire.up)
      && (a.Connect? || a.SessionEnd? ==> !s.wire.up)
    case LinkActs(a) => LinkEnabled(s.wire, a)
  }

  function Happens(settings: Settings, s: System, e: Event): System
    requires CanHappen(settings, s, e)
  {
    match e
    case KitchenActs(a, handed) =>
      var w := NextWire(Src(s.kitchen), s.wire, EffectOf(settings, s.kitchen, a), handed);
      System(Next(settings, s.kitchen, a), if a.Connect? then w.(up := true) else w)
    case LinkActs(a) => s.(wire := NextLink(s.wire, a))
  }

  ghost predicate SystemInv(settings: Settings, s: System) {
    Inv(settings, s.kitchen) && ReplicationInv(Src(s.kitchen), s.wire)
  }

  lemma OpenKeeps(src: Source, w: Wire)
    requires ReplicationInv(src, w) && !w.up
    ensures ReplicationInv(src, w.(up := true))
  {
    hide ClientSound;
    assert Stream(w.(up := true)) == Stream(w);
  }

  lemma HappensKeeps(settings: Settings, s: System, e: Event)
    requires SystemInv(settings, s) && CanHappen(settings, s, e)
    ensures SystemInv(settings, Happens(settings, s, e))
  {
    match e
    case KitchenActs(a, handed) =>
      hide BooksInv, StaffInv, ReplicationInv;
      StepKeeps(settings, s.kitchen, a);
      KitchenExplained(settings, s.kitchen, a);
      SourceStepKeeps(Src(s.kitchen), s.wire, EffectOf(settings, s.kitchen, a), handed);
      if a.Connect? {
        OpenKeeps(Src(s.kitchen), s.wire);
      }
    case LinkActs(a) =>
      hide BooksInv, StaffInv, ReplicationInv;
      LinkStepKeeps(Src(s.kitchen), s.wire, a);
  }

  lemma StartSound(settings: Settings, now: Millis)
    ensures SystemInv(settings, Start(settings, now))
  {
    hide BooksInv, StaffInv;
    InitKeeps(settings, 0, now);
    assert Stream(Start(settings, now).wire) == [];
  }
}
