/** When the broker's retained slots are right, and the one way they can fall behind. */
module SelfHealing {
  import opened Models
  import opened StoreModel
  import opened KitchenModel
  import opened KitchenInvariants
  import opened KitchenProofs
  import opened Replication
  import opened ReplicationProofs
  import opened Convergence
  import opened RestaurantSystem
  import opened Runs
  import opened BrowserWindows
  import opened Safety

  /** The action serves a dish of the table. */
  predicate ServesTable(s: System, e: Event, t: TableId) {
    && e.KitchenActs? && e.action.TaskWake?
    && e.action.task in s.kitchen.tasks && s.kitchen.tasks[e.action.task].tableId == t
  }

  // --- a reset's own snapshots never go stale ------------------------------------------------

  ghost predicate ResetFresh(k: Kitchen) {
    k.main.Resetting? ==> forall m :: m in k.main.todo ==> Current(Src(k), m)
  }

  lemma ResetBeginsFresh(settings: Settings, k: Kitchen)
    requires Enabled(settings, k, ResetCommit)
    ensures ResetFresh(Next(settings, k, ResetCommit))
  {
    hide AllSnapshots;
    SnapshotsComplete(Reset(k.store, k.store.epoch + 1), k.now, []);
  }

  /** While a reset publishes there is no cook left to change anything. */
  lemma ResetStaysFresh(settings: Settings, k: Kitchen, a: Action)
    requires Enabled(settings, k, a) && ResetFresh(k) && !a.ResetCommit?
    requires k.main.Resetting? ==> k.tasks == map[]
    ensures ResetFresh(Next(settings, k, a))
  {
    hide TryAccept, FinishOrder, AllSnapshots;
    var k' := Next(settings, k, a);
    if k'.main.Resetting? {
      forall m | m in k'.main.todo ensures Current(Src(k'), m) {
        assert m in k.main.todo;
      }
    }
  }

  lemma {:induction false} AlwaysResetFresh(settings: Settings, states: seq<System>, events: seq<Event>, i: nat)
    requires IsRun(settings, states, events) && i < |states|
    ensures ResetFresh(states[i].kitchen)
  {
    if i == 0 {
    } else {
      AlwaysResetFresh(settings, states, events, i - 1);
      KitchenSound(settings, states, events, i - 1);
      assert Step(settings, states[i - 1], events[i - 1], states[i]);
      var k, e := states[i - 1].kitchen, events[i - 1];
      assert k.main.Resetting? ==> k.tasks == map[];
      hide Inv, ResetFresh;
      if e.KitchenActs? {
        if e.action.ResetCommit? {
          ResetBeginsFresh(settings, k);
        } else {
          ResetStaysFresh(settings, k, e.action);
        }
      }
    }
  }

  // --- how a slot falls behind ----------------------------------------------------------------

  /** The announce is publishing a snapshot of the table that a cook has overtaken. */
  predicate PublishesStale(s: System, e: Event, t: TableId) {
    && e.KitchenActs? && e.action.AnnounceNext?
    && s.kitchen.main.Announcing? && s.kitchen.main.todo != []
    && s.kitchen.main.todo[0].tableId == t
    && !Current(Src(s.kitchen), s.kitchen.main.todo[0])
  }

  /** The action publishes a snapshot of the table, taken by the link or not. */
  predicate Publishes(settings: Settings, s: System, e: Event, t: TableId) {
    && e.KitchenActs? && Enabled(settings, s.kitchen, e.action)
    && Sent(settings, s.kitchen, e.action).Some? && Sent(settings, s.kitchen, e.action).value.tableId == t
  }

  /** A table counts as lagging when the last snapshot published of it was out of date. */
  lemma LagAfterEffect(src: Source, w: Wire, e: Effect, handed: bool, t: TableId)
    requires SlotsKnown(src, w) && Possible(src, e)
    ensures t in NextWire(src, w, e, handed).lagging <==>
            if Emission(src, e).Some? && Emission(src, e).value.tableId == t
            then e.Replay? && !Current(src, src.todo[0])
            else t in w.lagging
  {
  }

  lemma ReplaysExactly(settings: Settings, k: Kitchen, a: Action)
    requires Enabled(settings, k, a)
    ensures EffectOf(settings, k, a).Replay? <==> a.AnnounceNext? || a.ResetNext?
  {
    hide TryAccept, FinishOrder;
  }

  lemma EventLag(settings: Settings, s: System, e: Event, t: TableId)
    requires Inv(settings, s.kitchen) && SlotsKnown(Src(s.kitchen), s.wire) && ResetFresh(s.kitchen)
    requires CanHappen(settings, s, e)
    ensures t in Happens(settings, s, e).wire.lagging <==>
            if Publishes(settings, s, e, t) then PublishesStale(s, e, t) else t in s.wire.lagging
  {
    hide Inv;
    if e.KitchenActs? {
      KitchenExplained(settings, s.kitchen, e.action);
      ReplaysExactly(settings, s.kitchen, e.action);
      PublishesTodo(settings, s.kitchen, e.action);
      hide EffectOf, NextWire, NextSource, Emission, Next, Sent, SlotsKnown;
      LagAfterEffect(Src(s.kitchen), s.wire, EffectOf(settings, s.kitchen, e.action), e.handed, t);
    }
  }

  lemma PublishesTodo(settings: Settings, k: Kitchen, a: Action)
    requires Enabled(settings, k, a)
    ensures a.AnnounceNext? || a.ResetNext? ==> Todo(k) != [] && Sent(settings, k, a) == Some(Todo(k)[0])
  {
  }

  /** The last publish of the table was of a snapshot that had been overtaken. */
  ghost predicate LastPublishStale(settings: Settings, states: seq<System>, events: seq<Event>, j: nat, t: TableId)
    requires j <= |events| < |states|
  {
    exists n :: 0 <= n < j && PublishesStale(states[n], events[n], t)
                && forall k :: n < k < j ==> !Publishes(settings, states[k], events[k], t)
  }

  lemma {:induction false} LagExactly(settings: Settings, states: seq<System>, events: seq<Event>, j: nat, t: TableId)
    requires IsRun(settings, states, events) && j < |states|
    ensures t in states[j].wire.lagging <==> LastPublishStale(settings, states, events, j, t)
  {
    hide Inv, SlotsKnown, ResetFresh, CanHappen, Happens, Publishes, PublishesStale;
    if j == 0 {
      assert states[0].wire.lagging == {};
    } else {
      LagExactly(settings, states, events, j - 1, t);
      RunSound(settings, states, events, j - 1);
      AlwaysResetFresh(settings, states, events, j - 1);
      assert Step(settings, states[j - 1], events[j - 1], states[j]);
      EventLag(settings, states[j - 1], events[j - 1], t);
      StalePublishes(settings, states[j - 1], events[j - 1], t);
      LastPublishSteps(settings, states, events, j - 1, t);
    }
  }

  lemma StalePublishes(settings: Settings, s: System, e: Event, t: TableId)
    ensures PublishesStale(s, e, t) ==> Publishes(settings, s, e, t)
  {
  }

  lemma LastPublishSteps(settings: Settings, states: seq<System>, events: seq<Event>, j: nat, t: TableId)
    requires j < |events| < |states|
    requires PublishesStale(states[j], events[j], t) ==> Publishes(settings, states[j], events[j], t)
    ensures LastPublishStale(settings, states, events, j + 1, t) <==>
            if Publishes(settings, states[j], events[j], t) then PublishesStale(states[j], events[j], t)
            else LastPublishStale(settings, states, events, j, t)
  {
    hide Publishes, PublishesStale;
    if Publishes(settings, states[j], events[j], t) {
    } else {
      if n :| 0 <= n < j && PublishesStale(states[n], events[n], t)
              && forall k :: n < k < j ==> !Publishes(settings, states[k], events[k], t) {
        assert forall k :: n < k < j + 1 ==> !Publishes(settings, states[k], events[k], t);
      }
      if n :| 0 <= n < j + 1 && PublishesStale(states[n], events[n], t)
              && forall k :: n < k < j + 1 ==> !Publishes(settings, states[k], events[k], t) {
        assert n < j;
      }
    }
  }

  // --- what makes a snapshot stale ------------------------------------------------------------

  /** The announce going on at `n` began at `i`. */
  ghost predicate AnnouncingSince(states: seq<System>, events: seq<Event>, i: nat, n: nat)
    requires n < |states| && n <= |events|
  {
    && i < n && events[i].KitchenActs? && events[i].action.AnnounceStart?
    && forall k :: i < k <= n ==> states[k].kitchen.main.Announcing?
  }

  lemma AnnounceKeepsOn(settings: Settings, s: System, e: Event)
    requires CanHappen(settings, s, e) && Happens(settings, s, e).kitchen.main.Announcing?
    ensures s.kitchen.main.Announcing? || (e.KitchenActs? && e.action.AnnounceStart?)
  {
    hide TryAccept, FinishOrder, AllSnapshots, NextWire, EffectOf;
  }

  lemma {:induction false} AnnounceBegan(settings: Settings, states: seq<System>, events: seq<Event>, n: nat)
      returns (i: nat)
    requires IsRun(settings, states, events) && n < |states| && states[n].kitchen.main.Announcing?
    ensures i < n && AnnouncingSince(states, events, i, n)
  {
    hide CanHappen, Happens;
    i := 0;
    if n == 0 {
      assert false;
    } else {
      assert Step(settings, states[n - 1], events[n - 1], states[n]);
      AnnounceKeepsOn(settings, states[n - 1], events[n - 1]);
      if events[n - 1].KitchenActs? && events[n - 1].action.AnnounceStart? {
        i := n - 1;
      } else {
        i := AnnounceBegan(settings, states, events, n - 1);
      }
    }
  }

  lemma ServingBumps(settings: Settings, s: System, e: Event, t: TableId)
    requires Inv(settings, s.kitchen) && CanHappen(settings, s, e) && ServesTable(s, e, t)
    ensures EffectOf(settings, s.kitchen, e.action).Bump? && EffectOf(settings, s.kitchen, e.action).tableId == t
  {
    hide TaskMatches, Faithful, Windowed, Capped, Punctual, Increasing, Numbered, OneTaskPerDish, AllAttended,
         MainSound, FinishEffect;
    assert TaskMatches(s.kitchen, s.kitchen.tasks[e.action.task]);
    WakeBumps(settings, s.kitchen, e.action.task);
  }

  lemma WakeBumps(settings: Settings, k: Kitchen, i: nat)
    requires Shaped(settings, k) && Faithful(k) && Enabled(settings, k, TaskWake(i)) && TaskMatches(k, k.tasks[i])
    ensures FinishEffect(k, i, Served).Bump? && FinishEffect(k, i, Served).tableId == k.tasks[i].tableId
  {
    hide FinishOrder, TaskMatches, Shaped, Faithful;
    WakeFinishes(settings, k, i);
  }

  lemma OnlyServingBumps(settings: Settings, s: System, e: Event, t: TableId)
    requires Inv(settings, s.kitchen) && CanHappen(settings, s, e) && e.KitchenActs?
    requires s.kitchen.main.Announcing? && !ServesTable(s, e, t)
    ensures var effect := EffectOf(settings, s.kitchen, e.action);
            !(effect.Bump? && effect.tableId == t) && !effect.ListAll? && !effect.Renew?
  {
    if e.action.TaskRaise? {
      RaiseIsHarmless(settings, s.kitchen, e.action.task);
    }
    hide Inv, FinishOrder, TryAccept, AllSnapshots;
  }

  lemma TouchedStep(settings: Settings, s: System, e: Event, t: TableId)
    requires Inv(settings, s.kitchen) && CanHappen(settings, s, e) && s.kitchen.main.Announcing?
    ensures t in Happens(settings, s, e).wire.touched <==> t in s.wire.touched || ServesTable(s, e, t)
  {
    hide Inv, EffectOf, Next, ServesTable;
    if e.KitchenActs? {
      if ServesTable(s, e, t) {
        ServingBumps(settings, s, e, t);
      } else {
        OnlyServingBumps(settings, s, e, t);
      }
    } else {
      NotServing(s, e, t);
    }
  }

  lemma NotServing(s: System, e: Event, t: TableId)
    requires !e.KitchenActs?
    ensures !ServesTable(s, e, t)
  {
  }

  lemma AnnounceTouchesNothing(settings: Settings, s: System, e: Event)
    requires CanHappen(settings, s, e) && e.KitchenActs? && e.action.AnnounceStart?
    ensures Happens(settings, s, e).wire.touched == {}
  {
    hide AllSnapshots;
  }

  /** The tables changed since an announce began are those a cook has served since. */
  lemma {:induction false} TouchedExactly(
      settings: Settings, states: seq<System>, events: seq<Event>, i: nat, n: nat, t: TableId)
    requires IsRun(settings, states, events) && n < |states| && AnnouncingSince(states, events, i, n)
    ensures t in states[n].wire.touched <==> exists k :: i < k < n && ServesTable(states[k], events[k], t)
    decreases n
  {
    hide CanHappen, Happens, Inv, ServesTable;
    assert Step(settings, states[n - 1], events[n - 1], states[n]);
    if n == i + 1 {
      AnnounceTouchesNothing(settings, states[i], events[i]);
    } else {
      TouchedExactly(settings, states, events, i, n - 1, t);
      KitchenSound(settings, states, events, n - 1);
      TouchedStep(settings, states[n - 1], events[n - 1], t);
    }
  }

  /** An announce publishes a snapshot of the table that a cook has overtaken, by serving that
      table since the announce began. */
  ghost predicate PublishesOvertaken(states: seq<System>, events: seq<Event>, n: nat, t: TableId)
    requires n < |events| < |states|
  {
    && events[n].KitchenActs? && events[n].action.AnnounceNext?
    && states[n].kitchen.main.Announcing? && states[n].kitchen.main.todo != []
    && states[n].kitchen.main.todo[0].tableId == t
    && exists i, k :: 0 <= i < k < n && AnnouncingSince(states, events, i, n) && ServesTable(states[k], events[k], t)
  }

  /** A published snapshot is out of date exactly if it has been overtaken. */
  lemma StaleExactly(settings: Settings, states: seq<System>, events: seq<Event>, n: nat, t: TableId)
    requires IsRun(settings, states, events) && n < |events|
    ensures PublishesStale(states[n], events[n], t) <==> PublishesOvertaken(states, events, n, t)
  {
    hide ServesTable, CanHappen, Happens, AnnouncingSince, Current, Inv;
    var s := states[n];
    if s.kitchen.main.Announcing? && s.kitchen.main.todo != [] && s.kitchen.main.todo[0].tableId == t {
      RunSound(settings, states, events, n);
      StaleIsTouched(s, s.kitchen.main.todo[0]);
      var i := AnnounceBegan(settings, states, events, n);
      TouchedExactly(settings, states, events, i, n, t);
      if PublishesOvertaken(states, events, n, t) {
        var i', k :| 0 <= i' < k < n && AnnouncingSince(states, events, i', n) && ServesTable(states[k], events[k], t);
        TouchedExactly(settings, states, events, i', n, t);
      }
    }
  }

  lemma StaleIsTouched(s: System, m: TableState)
    requires SlotsKnown(Src(s.kitchen), s.wire) && m in Todo(s.kitchen)
    ensures m.tableId in s.wire.touched <==> !Current(Src(s.kitchen), m)
  {
  }

  /** The last publish of the table was of a snapshot that a cook had overtaken. */
  ghost predicate LastPublishOvertaken(
      settings: Settings, states: seq<System>, events: seq<Event>, j: nat, t: TableId)
    requires j <= |events| < |states|
  {
    exists n :: 0 <= n < j && PublishesOvertaken(states, events, n, t)
                && forall k :: n < k < j ==> !Publishes(settings, states[k], events[k], t)
  }

  /** Exactly when a slot is right. Once an announce begun on a live link has been published,
      with nothing lost since it began, the broker's slot for a table says what the store
      holds, unless the last snapshot published of that table was one an announce had listed
      before a cook served that table, and handed over after. */
  lemma SlotCurrentExactly(
      settings: Settings, states: seq<System>, events: seq<Event>, i: nat, j: nat, t: TableId)
    requires IsRun(settings, states, events) && i < j < |states| && t in settings.tables
    requires events[i].KitchenActs? && events[i].action.AnnounceStart? && states[i].wire.up
    requires forall n :: i < n < j ==> Lossless(settings, states[n], events[n])
    requires Todo(states[j].kitchen) == [] && states[j].wire.pipe == []
    ensures SlotCurrent(Src(states[j].kitchen), states[j].wire.log, t) <==>
            !LastPublishOvertaken(settings, states, events, j, t)
  {
    hide Lossless, PublishesStale, PublishesOvertaken, Publishes, CanHappen, Happens;
    SlotByLag(settings, states, events, i, j, t);
    LagExactly(settings, states, events, j, t);
    forall n | 0 <= n < j
      ensures PublishesStale(states[n], events[n], t) <==> PublishesOvertaken(states, events, n, t)
    {
      StaleExactly(settings, states, events, n, t);
    }
  }

  lemma SlotByLag(settings: Settings, states: seq<System>, events: seq<Event>, i: nat, j: nat, t: TableId)
    requires IsRun(settings, states, events) && i < j < |states| && t in settings.tables
    requires events[i].KitchenActs? && events[i].action.AnnounceStart? && states[i].wire.up
    requires forall n :: i < n < j ==> Lossless(settings, states[n], events[n])
    requires Todo(states[j].kitchen) == [] && states[j].wire.pipe == []
    ensures SlotCurrent(Src(states[j].kitchen), states[j].wire.log, t) <==> t !in states[j].wire.lagging
  {
    IntactSinceAnnounce(settings, states, events, i, j);
    KeepsTables(settings, states, events, j);
    RunSound(settings, states, events, j);
    hide Inv, ReplicationInv;
    SlotExactly(Src(states[j].kitchen), states[j].wire, t);
  }

  // --- the table listed first -----------------------------------------------------------------

  predicate IsFirst(settings: Settings, t: TableId) {
    t in settings.tables && forall u :: u in settings.tables ==> t <= u
  }

  /** The first table is handed over in the very stretch that lists the tables. */
  ghost predicate FirstAtOnce(settings: Settings, k: Kitchen) {
    k.main.Announcing? ==>
      if k.main.begun then forall m :: m in k.main.todo ==> !IsFirst(settings, m.tableId)
      else
        && (forall m :: m in k.main.todo ==> Current(Src(k), m))
        && (forall i :: 0 < i < |k.main.todo| ==> !IsFirst(settings, k.main.todo[i].tableId))
  }

  lemma ListingStartsFirst(settings: Settings, k: Kitchen)
    requires Enabled(settings, k, AnnounceStart) && k.store.tables.Keys == settings.tables
    ensures FirstAtOnce(settings, Next(settings, k, AnnounceStart))
  {
    hide SortedIds;
    var ids, all := SortedIds(k.store.tables.Keys), AllSnapshots(k.store, k.now);
    SnapshotsComplete(k.store, k.now, []);
    forall i | 0 < i < |all| ensures !IsFirst(settings, all[i].tableId) {
      assert ids[0] in ids && ids[0] < ids[i];
    }
  }

  lemma FirstAtOnceStays(settings: Settings, k: Kitchen, a: Action)
    requires Enabled(settings, k, a) && FirstAtOnce(settings, k) && k.store.tables.Keys == settings.tables
    ensures FirstAtOnce(settings, Next(settings, k, a))
  {
    if a.AnnounceStart? {
      ListingStartsFirst(settings, k);
    } else {
      hide TryAccept, AllSnapshots, FinishOrder, Current;
      var k' := Next(settings, k, a);
      if k'.main.Announcing? {
        assert forall m :: m in k'.main.todo ==> m in k.main.todo;
      }
    }
  }

  lemma {:induction false} AlwaysFirstAtOnce(settings: Settings, states: seq<System>, events: seq<Event>, n: nat)
    requires IsRun(settings, states, events) && n < |states|
    ensures FirstAtOnce(settings, states[n].kitchen)
  {
    hide CanHappen, Happens, FirstAtOnce;
    if n == 0 {
      NotAnnouncing(settings, states[0].kitchen);
    } else {
      AlwaysFirstAtOnce(settings, states, events, n - 1);
      KeepsTables(settings, states, events, n - 1);
      assert Step(settings, states[n - 1], events[n - 1], states[n]);
      EventFirstAtOnce(settings, states[n - 1], events[n - 1]);
    }
  }

  lemma NotAnnouncing(settings: Settings, k: Kitchen)
    requires !k.main.Announcing?
    ensures FirstAtOnce(settings, k)
  {
  }

  lemma EventFirstAtOnce(settings: Settings, s: System, e: Event)
    requires CanHappen(settings, s, e) && FirstAtOnce(settings, s.kitchen)
    requires s.kitchen.store.tables.Keys == settings.tables
    ensures FirstAtOnce(settings, Happens(settings, s, e).kitchen)
  {
    hide FirstAtOnce, Next, NextWire, EffectOf;
    if e.KitchenActs? {
      FirstAtOnceStays(settings, s.kitchen, e.action);
    }
  }

  /** So the slot of the table listed first never falls behind: after every lossless announce it
      is right, whatever the cooks do meanwhile. It takes two tables for a slot to fall behind. */
  lemma FirstSlotHeals(
      settings: Settings, states: seq<System>, events: seq<Event>, i: nat, j: nat, t: TableId)
    requires IsRun(settings, states, events) && i < j < |states| && IsFirst(settings, t)
    requires events[i].KitchenActs? && events[i].action.AnnounceStart? && states[i].wire.up
    requires forall n :: i < n < j ==> Lossless(settings, states[n], events[n])
    requires Todo(states[j].kitchen) == [] && states[j].wire.pipe == []
    ensures SlotCurrent(Src(states[j].kitchen), states[j].wire.log, t)
  {
    hide Lossless, PublishesStale, Publishes, CanHappen, Happens;
    SlotByLag(settings, states, events, i, j, t);
    LagExactly(settings, states, events, j, t);
    forall n | 0 <= n < j ensures !PublishesStale(states[n], events[n], t) {
      AlwaysFirstAtOnce(settings, states, events, n);
      FirstNeverStale(settings, states[n], events[n], t);
    }
  }

  lemma FirstNeverStale(settings: Settings, s: System, e: Event, t: TableId)
    requires FirstAtOnce(settings, s.kitchen) && IsFirst(settings, t)
    ensures !PublishesStale(s, e, t)
  {
    hide Current;
    if s.kitchen.main.Announcing? && s.kitchen.main.todo != [] {
      assert s.kitchen.main.todo[0] in s.kitchen.main.todo;
    }
  }

  // --- an announce heals ----------------------------------------------------------------------

  /** Since the announce began: the table is unchanged while the announce runs, and its slot is
      in order or about to be. */
  ghost predicate Healing(s: System, t: TableId) {
    && (s.kitchen.main.Announcing? ==> t !in s.wire.touched)
    && (t !in s.wire.lagging || (s.kitchen.main.Announcing? && Mentions(s.kitchen.main.todo, t)))
  }

  lemma AnnounceHeals(settings: Settings, s: System, e: Event, t: TableId)
    requires CanHappen(settings, s, e) && t in s.kitchen.store.tables
    requires e.KitchenActs? && e.action.AnnounceStart?
    ensures Healing(Happens(settings, s, e), t)
  {
    hide AllSnapshots;
    SnapshotsComplete(s.kitchen.store, s.kitchen.now, []);
  }

  lemma StaysUntouched(settings: Settings, s: System, e: Event, t: TableId)
    requires SystemInv(settings, s) && CanHappen(settings, s, e)
    requires s.kitchen.main.Announcing? && t !in s.wire.touched && !ServesTable(s, e, t)
    ensures t !in Happens(settings, s, e).wire.touched
  {
    hide Inv, ReplicationInv, CanHappen, Happens, ServesTable;
    TouchedStep(settings, s, e, t);
  }

  lemma LagAfterUntouched(src: Source, w: Wire, e: Effect, handed: bool, t: TableId)
    requires Possible(src, e)
    requires e.Replay? && src.todo[0].tableId == t ==> t !in w.touched
    ensures t in NextWire(src, w, e, handed).lagging ==> t in w.lagging
    ensures e.Replay? && src.todo[0].tableId == t ==> t !in NextWire(src, w, e, handed).lagging
  {
  }

  /** What the announce still has to publish after one step of it. */
  lemma AnnounceProgress(settings: Settings, k: Kitchen, a: Action, t: TableId)
    requires Enabled(settings, k, a) && k.main.Announcing? && Mentions(k.main.todo, t) && !a.Restart?
    ensures var m := Next(settings, k, a).main;
            || (m.Announcing? && Mentions(m.todo, t))
            || (a.AnnounceNext? && k.main.todo[0].tableId == t)
  {
    hide TryAccept, FinishOrder;
    if a.AnnounceNext? {
      MentionsTail(k.main.todo, t);
    }
  }

  /** The next snapshot to be published, if it is of this table, is not out of date. */
  lemma UntouchedHead(settings: Settings, s: System, t: TableId)
    requires SystemInv(settings, s) && ResetFresh(s.kitchen) && Healing(s, t)
    ensures Todo(s.kitchen) != [] && Todo(s.kitchen)[0].tableId == t ==> t !in s.wire.touched
  {
    assert SlotsKnown(Src(s.kitchen), s.wire);
    assert Todo(s.kitchen) != [] ==> Todo(s.kitchen)[0] in Todo(s.kitchen);
  }

  lemma LagStays(settings: Settings, s: System, e: Event, t: TableId)
    requires SystemInv(settings, s) && ResetFresh(s.kitchen) && CanHappen(settings, s, e) && Healing(s, t)
    ensures t in Happens(settings, s, e).wire.lagging ==> t in s.wire.lagging
    ensures e.KitchenActs? && e.action.AnnounceNext? && s.kitchen.main.todo[0].tableId == t ==>
              t !in Happens(settings, s, e).wire.lagging
  {
    hide Inv, ReplicationInv, ResetFresh;
    UntouchedHead(settings, s, t);
    if e.KitchenActs? {
      KitchenExplained(settings, s.kitchen, e.action);
      ReplaysExactly(settings, s.kitchen, e.action);
      hide EffectOf, NextWire, NextSource, Emission, Next, Sent, Healing;
      LagAfterUntouched(Src(s.kitchen), s.wire, EffectOf(settings, s.kitchen, e.action), e.handed, t);
    }
  }

  lemma HealingStays(settings: Settings, s: System, e: Event, t: TableId)
    requires SystemInv(settings, s) && ResetFresh(s.kitchen) && CanHappen(settings, s, e) && t in s.kitchen.store.tables
    requires Healing(s, t)
    requires s.kitchen.main.Announcing? ==> !ServesTable(s, e, t)
    requires !(e.KitchenActs? && e.action.Restart?)
    ensures Healing(Happens(settings, s, e), t)
  {
    hide Inv, ReplicationInv, ResetFresh, ServesTable;
    if e.KitchenActs? && e.action.AnnounceStart? {
      AnnounceHeals(settings, s, e, t);
    } else {
      LagStays(settings, s, e, t);
      if s.kitchen.main.Announcing? {
        StaysUntouched(settings, s, e, t);
      }
      if e.KitchenActs? {
        hide NextWire, EffectOf;
        NoNewAnnounce(settings, s.kitchen, e.action);
        if s.kitchen.main.Announcing? && Mentions(s.kitchen.main.todo, t) {
          AnnounceProgress(settings, s.kitchen, e.action, t);
        }
        hide Next;
      }
    }
  }

  lemma NoNewAnnounce(settings: Settings, k: Kitchen, a: Action)
    requires Enabled(settings, k, a) && !a.AnnounceStart?
    ensures Next(settings, k, a).main.Announcing? ==> k.main.Announcing?
  {
    hide TryAccept, FinishOrder;
  }

  lemma {:induction false} HealingSince(settings: Settings, states: seq<System>, events: seq<Event>, i: nat,
                                        j: nat, t: TableId)
    requires IsRun(settings, states, events) && i < j < |states| && t in settings.tables
    requires events[i].KitchenActs? && events[i].action.AnnounceStart?
    requires forall n :: i < n < j ==> Lossless(settings, states[n], events[n])
    requires forall n :: i < n < j && states[n].kitchen.main.Announcing? ==> !ServesTable(states[n], events[n], t)
    ensures Healing(states[j], t)
  {
    hide SystemInv, ResetFresh, CanHappen, Happens, Healing, ServesTable;
    RunSound(settings, states, events, j - 1);
    KeepsTables(settings, states, events, j - 1);
    AlwaysResetFresh(settings, states, events, j - 1);
    assert Step(settings, states[j - 1], events[j - 1], states[j]);
    if j == i + 1 {
      AnnounceHeals(settings, states[i], events[i], t);
    } else {
      HealingSince(settings, states, events, i, j - 1, t);
      HealingStays(settings, states[j - 1], events[j - 1], t);
    }
  }

  /** The broker's slots heal themselves. Once an announce begun on a live link has been
      published, with nothing lost since it began, the slot of every table no cook served while
      the announce ran says exactly what the store holds, and goes on doing so as orders, cooks
      and resets are published. */
  lemma SlotsHeal(settings: Settings, states: seq<System>, events: seq<Event>, i: nat, j: nat, t: TableId)
    requires IsRun(settings, states, events) && i < j < |states| && t in settings.tables
    requires events[i].KitchenActs? && events[i].action.AnnounceStart? && states[i].wire.up
    requires forall n :: i < n < j ==> Lossless(settings, states[n], events[n])
    requires forall n :: i < n < j && states[n].kitchen.main.Announcing? ==> !ServesTable(states[n], events[n], t)
    requires Todo(states[j].kitchen) == [] && states[j].wire.pipe == []
    ensures SlotCurrent(Src(states[j].kitchen), states[j].wire.log, t)
  {
    HealingSince(settings, states, events, i, j, t);
    IntactSinceAnnounce(settings, states, events, i, j);
    KeepsTables(settings, states, events, j);
    RunSound(settings, states, events, j);
    hide Inv, ReplicationInv;
    SlotExactly(Src(states[j].kitchen), states[j].wire, t);
  }

  /** A drained window that is owed nothing has been through every table's slot. */
  lemma SlotGoesThrough(
      settings: Settings, states: seq<System>, events: seq<Event>, j: nat, c: int, t: TableId) returns (p: nat)
    requires IsRun(settings, states, events) && j < |states|
    requires Drained(states[j].wire, c) && states[j].wire.clients[c].owed == map[]
    requires SlotCurrent(Src(states[j].kitchen), states[j].wire.log, t)
    ensures BeenThrough(states[j].wire, c, t, p) && Current(Src(states[j].kitchen), states[j].wire.log[p])
  {
    var w := states[j].wire;
    SubscriptionSound(settings, states, events, j, c);
    p := LastIndex(w.log, t).value;
    if p < w.clients[c].since {
      LastIndexPrefix(w.log, w.clients[c].since, t);
    }
  }

  lemma LastIndexPrefix(ms: seq<TableState>, n: nat, t: TableId)
    requires n <= |ms| && LastIndex(ms, t).Some? && LastIndex(ms, t).value < n
    ensures LastIndex(ms[..n], t) == LastIndex(ms, t)
  {
    assert ms[..n][LastIndex(ms, t).value] == ms[LastIndex(ms, t).value];
  }

  /** Exactly what a window opened at any moment shows of a table whose slot is right, once it
      has had its retained messages and what was sent since. */
  lemma LateWindowsConvergeExactly(
      settings: Settings, states: seq<System>, events: seq<Event>, j: nat, c: int, t: TableId)
    requires IsRun(settings, states, events) && j < |states|
    requires Drained(states[j].wire, c) && states[j].wire.clients[c].owed == map[]
    requires SlotCurrent(Src(states[j].kitchen), states[j].wire.log, t)
    ensures ShowsTable(Src(states[j].kitchen), states[j].wire, c, t) <==>
            !Overtaken(states, events, j, c, t, Src(states[j].kitchen))
  {
    hide Overtaken, Drained, SlotCurrent, Current;
    var p := SlotGoesThrough(settings, states, events, j, c, t);
    DrainedShowsExactly(settings, states, events, j, c, t, p);
  }

  /** A window opened at any moment, before or after the announce, shows the store as soon as
      it has had its retained messages and what was sent since, if no cook served anything
      while the announce ran and no retained message came to it late. */
  lemma LateWindowsConverge(settings: Settings, states: seq<System>, events: seq<Event>, i: nat, j: nat, c: int)
    requires IsRun(settings, states, events) && i < j < |states|
    requires events[i].KitchenActs? && events[i].action.AnnounceStart? && states[i].wire.up
    requires forall n :: i < n < j ==> Lossless(settings, states[n], events[n])
    requires forall n, t :: i < n < j && states[n].kitchen.main.Announcing? ==> !ServesTable(states[n], events[n], t)
    requires forall n, t :: 0 <= n < j ==> !IsLate(states[n], events[n], c, t)
    requires Todo(states[j].kitchen) == [] && Drained(states[j].wire, c) && states[j].wire.clients[c].owed == map[]
    ensures Shows(states[j].wire.clients[c].view, states[j].kitchen.store)
  {
    hide Lossless, ServesTable, IsLate, ShowsTable, GivesCurrent, SlotCurrent, CanHappen, Happens;
    KeepsTables(settings, states, events, j);
    forall t | t in settings.tables ensures ShowsTable(Src(states[j].kitchen), states[j].wire, c, t) {
      SlotsHeal(settings, states, events, i, j, t);
      LateWindowsConvergeExactly(settings, states, events, j, c, t);
    }
    ShowsAll(settings, states, events, j, c);
  }
}
