/** What browser windows show, over whole runs: exactly when a window shows the store, and when
    it can be taken back. */
module BrowserWindows {
  import opened Models
  import opened StoreModel
  import opened KitchenModel
  import opened KitchenInvariants
  import opened Reducer
  import opened Replication
  import opened Convergence
  import opened RestaurantSystem
  import opened Runs

  // --- what windows are given -----------------------------------------------------------------

  /** The event gives the window a snapshot. */
  predicate Gives(s: System, e: Event, c: int, m: TableState) {
    e.LinkActs? && LinkEnabled(s.wire, e.link) && Given(s.wire, e.link, c) == Some(m)
  }

  /** The event gives the window a snapshot of the table that is current with respect to `src`. */
  ghost predicate GivesCurrent(s: System, e: Event, c: int, t: TableId, src: Source) {
    exists m :: Gives(s, e, c, m) && m.tableId == t && Current(src, m)
  }

  /** The event gives the window a snapshot of an earlier generation than it shows of the table. */
  predicate GoesBack(s: System, e: Event, c: int, t: TableId) {
    && e.LinkActs? && LinkEnabled(s.wire, e.link) && c in s.wire.clients && t in s.wire.clients[c].view
    && match Given(s.wire, e.link, c)
       case None => false
       case Some(m) => m.tableId == t && m.epoch < s.wire.clients[c].view[t].epoch
  }

  /** And that snapshot is a retained one: it has come after a live one of a later generation. */
  predicate IsLate(s: System, e: Event, c: int, t: TableId) {
    GoesBack(s, e, c, t) && e.link.Retained?
  }

  predicate Resubscribes(e: Event, c: int) {
    e.LinkActs? && (e.link == Subscribe(c) || e.link == Leave(c))
  }

  predicate RedeliversTo(e: Event, c: int) {
    e.LinkActs? && e.link.Redeliver? && e.link.client == c
  }

  /** The window shows the table exactly as the source holds it. */
  predicate ShowsTable(src: Source, w: Wire, c: int, t: TableId) {
    c in w.clients && t in w.clients[c].view && Current(src, w.clients[c].view[t])
  }

  // --- step by step ---------------------------------------------------------------------------

  lemma KitchenLeavesWindows(settings: Settings, s: System, e: Event)
    requires CanHappen(settings, s, e) && e.KitchenActs?
    ensures Happens(settings, s, e).wire.clients == s.wire.clients && Happens(settings, s, e).wire.log == s.wire.log
  {
    hide Next, EffectOf;
  }

  lemma EventGrowsLog(settings: Settings, s: System, e: Event)
    requires CanHappen(settings, s, e)
    ensures s.wire.log <= Happens(settings, s, e).wire.log
  {
    hide Next, EffectOf, NextWire;
    if e.KitchenActs? {
      KitchenLeavesWindows(settings, s, e);
    }
  }

  lemma {:induction false} LogGrows(settings: Settings, states: seq<System>, events: seq<Event>, i: nat, j: nat)
    requires IsRun(settings, states, events) && i <= j < |states|
    ensures states[i].wire.log <= states[j].wire.log
  {
    hide CanHappen, Happens;
    if i == j {
    } else {
      LogGrows(settings, states, events, i, j - 1);
      assert Step(settings, states[j - 1], events[j - 1], states[j]);
      EventGrowsLog(settings, states[j - 1], events[j - 1]);
    }
  }

  /** What one event does to a window's view. */
  lemma EventView(settings: Settings, s: System, e: Event, c: int)
    requires CanHappen(settings, s, e) && c in Happens(settings, s, e).wire.clients
    ensures e.LinkActs? ==> LinkEnabled(s.wire, e.link)
    ensures var view := Happens(settings, s, e).wire.clients[c].view;
            if c !in s.wire.clients then view == map[]
            else if e.LinkActs? && Given(s.wire, e.link, c).Some?
            then view == ApplyTableState(s.wire.clients[c].view, Given(s.wire, e.link, c).value)
            else view == s.wire.clients[c].view
    ensures c !in s.wire.clients ==> e.LinkActs? && Given(s.wire, e.link, c) == None
  {
    hide Next, EffectOf, NextLink, NextWire;
    if e.LinkActs? {
      ViewAfter(s.wire, e.link, c);
    } else {
      KitchenLeavesWindows(settings, s, e);
    }
  }

  lemma EventKeepsWindow(settings: Settings, s: System, e: Event, c: int)
    requires CanHappen(settings, s, e) && c in s.wire.clients
    ensures c in Happens(settings, s, e).wire.clients
  {
    hide Next, EffectOf, NextWire, Slots;
    if e.KitchenActs? {
      KitchenLeavesWindows(settings, s, e);
    }
  }

  /** What a window does with its subscription while it neither leaves nor resubscribes. */
  lemma EventSubscription(settings: Settings, s: System, e: Event, c: int)
    requires CanHappen(settings, s, e) && Listening(Happens(settings, s, e).wire, c)
    requires !Resubscribes(e, c)
    ensures Listening(s.wire, c)
    ensures var a, b := s.wire.clients[c], Happens(settings, s, e).wire.clients[c];
            && b.since == a.since
            && (b.cursor > a.cursor ==>
                  && b.cursor == a.cursor + 1
                  && a.cursor < |s.wire.log| && Gives(s, e, c, s.wire.log[a.cursor]))
            && (forall t :: t in a.owed && t !in b.owed ==>
                  a.owed[t] < |s.wire.log| && Gives(s, e, c, s.wire.log[a.owed[t]]))
            && (forall t :: t in b.owed ==> t in a.owed && b.owed[t] == a.owed[t])
  {
    hide Next, EffectOf, NextWire, Slots;
    if e.KitchenActs? {
      KitchenLeavesWindows(settings, s, e);
    }
  }

  lemma EventSubscribes(settings: Settings, s: System, e: Event, c: int)
    requires CanHappen(settings, s, e) && Listening(Happens(settings, s, e).wire, c)
    requires Resubscribes(e, c)
    ensures var w := Happens(settings, s, e).wire;
            && w.clients[c].since == w.clients[c].cursor == |w.log|
            && w.clients[c].owed == Slots(w.log)
  {
    hide Next, EffectOf, NextWire, Slots;
    if e.KitchenActs? {
      KitchenLeavesWindows(settings, s, e);
    }
  }

  /** A window that neither leaves nor resubscribes keeps its subscription. */
  lemma {:induction false} SubscribedSince(
      settings: Settings, states: seq<System>, events: seq<Event>, i: nat, j: nat, c: int)
    requires IsRun(settings, states, events) && i <= j < |states| && Listening(states[i].wire, c)
    requires forall n :: i <= n < j ==> !Resubscribes(events[n], c)
    ensures Listening(states[j].wire, c)
    ensures states[j].wire.clients[c].since == states[i].wire.clients[c].since
  {
    hide CanHappen, Happens, Resubscribes;
    if i == j {
    } else {
      SubscribedSince(settings, states, events, i, j - 1, c);
      assert Step(settings, states[j - 1], events[j - 1], states[j]);
      StaysSubscribed(settings, states[j - 1], events[j - 1], c);
    }
  }

  lemma StaysSubscribed(settings: Settings, s: System, e: Event, c: int)
    requires CanHappen(settings, s, e) && Listening(s.wire, c) && !Resubscribes(e, c)
    ensures Listening(Happens(settings, s, e).wire, c)
    ensures Happens(settings, s, e).wire.clients[c].since == s.wire.clients[c].since
  {
    hide Next, EffectOf, NextWire, Slots;
    if e.KitchenActs? {
      KitchenLeavesWindows(settings, s, e);
    }
  }

  // --- nothing a window meets is ahead of the source ------------------------------------------

  lemma LogIsKnown(settings: Settings, states: seq<System>, events: seq<Event>, n: nat, j: nat, m: TableState)
    requires IsRun(settings, states, events) && n <= j < |states| && m in states[n].wire.log
    ensures NotAhead(Src(states[j].kitchen), m)
  {
    RunSound(settings, states, events, n);
    RunSound(settings, states, events, j);
    TakenGrows(settings, states, events, n, j);
    hide Inv, NotAhead;
    assert m in Stream(states[n].wire);
    assert Archive(Src(states[j].kitchen), states[j].wire);
  }

  lemma ViewIsKnown(settings: Settings, states: seq<System>, events: seq<Event>, n: nat, j: nat, c: int, t: TableId)
    requires IsRun(settings, states, events) && n <= j < |states|
    requires c in states[n].wire.clients && t in states[n].wire.clients[c].view
    ensures states[n].wire.clients[c].view[t].tableId == t
    ensures states[n].wire.clients[c].view[t] in states[n].wire.log
    ensures NotAhead(Src(states[j].kitchen), states[n].wire.clients[c].view[t])
  {
    RunSound(settings, states, events, n);
    hide Inv, NotAhead;
    assert ClientSound(states[n].wire.log, states[n].wire.clients[c]);
    LogIsKnown(settings, states, events, n, j, states[n].wire.clients[c].view[t]);
  }

  lemma GivenIsKnown(settings: Settings, states: seq<System>, events: seq<Event>, n: nat, j: nat, c: int, m: TableState)
    requires IsRun(settings, states, events) && n < |events| && n <= j < |states|
    requires Gives(states[n], events[n], c, m)
    ensures m in states[n].wire.log && NotAhead(Src(states[j].kitchen), m)
  {
    hide NotAhead;
    RunSound(settings, states, events, n);
    DeliversFromLog(states[n].wire, events[n].link, c);
    LogIsKnown(settings, states, events, n, j, m);
  }

  lemma DeliversFromLog(w: Wire, a: LinkAction, c: int)
    requires LinkEnabled(w, a) && Given(w, a, c).Some?
    ensures Given(w, a, c).value in w.log
  {
  }

  // --- exactly when a window shows the store --------------------------------------------------

  /** A window given a current snapshot, and not taken back since, shows the table. */
  lemma {:induction false} ShownSince(
      settings: Settings, states: seq<System>, events: seq<Event>, n: nat, k: nat, j: nat, c: int, t: TableId)
    requires IsRun(settings, states, events) && n < k <= j < |states|
    requires GivesCurrent(states[n], events[n], c, t, Src(states[j].kitchen))
    requires forall x :: n < x < k ==> !GoesBack(states[x], events[x], c, t)
    ensures ShowsTable(Src(states[j].kitchen), states[k].wire, c, t)
    decreases k
  {
    hide CanHappen, Happens, NotAhead, Current;
    var src := Src(states[j].kitchen);
    var s, e := states[k - 1], events[k - 1];
    assert Step(settings, s, e, states[k]);
    if k == n + 1 {
      var m :| Gives(s, e, c, m) && m.tableId == t && Current(src, m);
      ViewAfter(s.wire, e.link, c);
      EventKeepsWindow(settings, s, e, c);
      EventView(settings, s, e, c);
      if t in s.wire.clients[c].view {
        ViewIsKnown(settings, states, events, n, j, c, t);
      }
      GivenIsShown(src, s.wire.clients[c].view, m);
    } else {
      ShownSince(settings, states, events, n, k - 1, j, c, t);
      StaysShown(settings, states, events, k - 1, j, c, t);
    }
  }

  lemma StaysShown(settings: Settings, states: seq<System>, events: seq<Event>, x: nat, j: nat, c: int, t: TableId)
    requires IsRun(settings, states, events) && x < j < |states|
    requires ShowsTable(Src(states[j].kitchen), states[x].wire, c, t) && !GoesBack(states[x], events[x], c, t)
    ensures ShowsTable(Src(states[j].kitchen), states[x + 1].wire, c, t)
  {
    hide CanHappen, Happens, NotAhead, Current;
    var s, e := states[x], events[x];
    assert Step(settings, s, e, states[x + 1]);
    EventKeepsWindow(settings, s, e, c);
    EventView(settings, s, e, c);
    ViewIsKnown(settings, states, events, x, j, c, t);
    if e.LinkActs? && Given(s.wire, e.link, c).Some? {
      var m := Given(s.wire, e.link, c).value;
      GivenIsKnown(settings, states, events, x, j, c, m);
      ShownStays(Src(states[j].kitchen), s.wire.clients[c].view, m, t);
    }
  }

  /** Since some event the window has been given a current snapshot and not been taken back. */
  ghost predicate HeldSince(states: seq<System>, events: seq<Event>, n: nat, k: nat, c: int, t: TableId, src: Source)
    requires |events| < |states| && k < |states| && k <= |events|
  {
    && n < k && GivesCurrent(states[n], events[n], c, t, src)
    && forall x :: n < x < k ==> !GoesBack(states[x], events[x], c, t)
  }

  /** A window that shows the table has been given a current snapshot, and not taken back since. */
  lemma {:induction false} ShownMeansGiven(
      settings: Settings, states: seq<System>, events: seq<Event>, k: nat, j: nat, c: int, t: TableId)
    requires IsRun(settings, states, events) && k <= j < |states|
    requires ShowsTable(Src(states[j].kitchen), states[k].wire, c, t)
    ensures exists n :: 0 <= n < k && HeldSince(states, events, n, k, c, t, Src(states[j].kitchen))
    decreases k
  {
    hide CanHappen, Happens, Current, GivesCurrent, GoesBack;
    var src := Src(states[j].kitchen);
    if k == 0 {
    } else {
      var s, e := states[k - 1], events[k - 1];
      assert Step(settings, s, e, states[k]);
      EventView(settings, s, e, c);
      if ShowsTable(src, s.wire, c, t) && !GoesBack(s, e, c, t) {
        ShownMeansGiven(settings, states, events, k - 1, j, c, t);
        var n :| 0 <= n < k - 1 && HeldSince(states, events, n, k - 1, c, t, src);
        assert HeldSince(states, events, n, k, c, t, src);
      } else {
        ShownAnew(settings, s, e, c, t, src);
        assert HeldSince(states, events, k - 1, k, c, t, src);
      }
    }
  }

  /** A window that newly shows the table, or shows it in spite of being taken back, has just
      been given what it shows. */
  lemma ShownAnew(settings: Settings, s: System, e: Event, c: int, t: TableId, src: Source)
    requires CanHappen(settings, s, e) && ShowsTable(src, Happens(settings, s, e).wire, c, t)
    requires !ShowsTable(src, s.wire, c, t) || GoesBack(s, e, c, t)
    ensures GivesCurrent(s, e, c, t, src)
  {
    hide Happens, Current;
    EventView(settings, s, e, c);
    var m := Given(s.wire, e.link, c).value;
    assert Gives(s, e, c, m);
  }

  /** Exactly when a window shows a table as the store holds it, in any run whatsoever: when it
      has been given a current snapshot and has not been given one of an earlier generation
      since. */
  lemma ShowsExactly(settings: Settings, states: seq<System>, events: seq<Event>, j: nat, c: int, t: TableId)
    requires IsRun(settings, states, events) && j < |states|
    ensures ShowsTable(Src(states[j].kitchen), states[j].wire, c, t) <==>
            exists n :: 0 <= n < j && HeldSince(states, events, n, j, c, t, Src(states[j].kitchen))
  {
    hide ShowsTable, GivesCurrent, GoesBack;
    var src := Src(states[j].kitchen);
    if ShowsTable(src, states[j].wire, c, t) {
      ShownMeansGiven(settings, states, events, j, j, c, t);
    }
    if exists n :: 0 <= n < j && HeldSince(states, events, n, j, c, t, src) {
      var n :| 0 <= n < j && HeldSince(states, events, n, j, c, t, src);
      ShownSince(settings, states, events, n, j, j, c, t);
    }
  }

  // --- drained windows ------------------------------------------------------------------------

  /** The window has been through log entry `p` of the table: delivered live, or retained when
      the window subscribed and no longer owed. */
  predicate BeenThrough(w: Wire, c: int, t: TableId, p: nat) {
    && Listening(w, c) && w.clients[c].since <= |w.log| && w.clients[c].cursor <= |w.log|
    && p < |w.log| && w.log[p].tableId == t
    && (|| w.clients[c].since <= p < w.clients[c].cursor
        || (t !in w.clients[c].owed && LastIndex(w.log[..w.clients[c].since], t) == Some(p)))
  }

  lemma SlotsOwed(log: seq<TableState>, t: TableId)
    ensures LastIndex(log, t).Some? ==> t in Slots(log)
  {
    if LastIndex(log, t).Some? {
      assert log[LastIndex(log, t).value] in log;
    }
  }

  lemma SubscriptionSound(settings: Settings, states: seq<System>, events: seq<Event>, k: nat, c: int)
    requires IsRun(settings, states, events) && k < |states| && Listening(states[k].wire, c)
    ensures ClientSound(states[k].wire.log, states[k].wire.clients[c])
  {
    RunSound(settings, states, events, k);
    hide Inv, ClientSound;
    assert Windows(states[k].wire);
  }

  /** What a window has been through it was given, in this subscription. */
  lemma {:induction false} ThroughWasGiven(
      settings: Settings, states: seq<System>, events: seq<Event>, k: nat, c: int, t: TableId, p: nat) returns (n: nat)
    requires IsRun(settings, states, events) && k < |states| && BeenThrough(states[k].wire, c, t, p)
    ensures n < k && Gives(states[n], events[n], c, states[k].wire.log[p])
    ensures forall x :: n < x < k ==> !Resubscribes(events[x], c)
    decreases k
  {
    hide CanHappen, Happens, LastIndex, Slots, Gives, Resubscribes;
    n := 0;
    if k == 0 {
      assert false;
    } else {
      assert Step(settings, states[k - 1], events[k - 1], states[k]);
      EventGrowsLog(settings, states[k - 1], events[k - 1]);
      if Resubscribes(events[k - 1], c) {
        EventSubscribes(settings, states[k - 1], events[k - 1], c);
        assert states[k].wire.log[..|states[k].wire.log|] == states[k].wire.log;
        SlotsOwed(states[k].wire.log, t);
        assert false;
      } else {
        EventSubscription(settings, states[k - 1], events[k - 1], c);
        SubscriptionSound(settings, states, events, k - 1, c);
        var a, b := states[k - 1].wire, states[k].wire;
        assert b.log[..a.clients[c].since] == a.log[..a.clients[c].since];
        if BeenThrough(a, c, t, p) {
          n := ThroughWasGiven(settings, states, events, k - 1, c, t, p);
        } else {
          n := k - 1;
        }
      }
    }
  }

  /** A window whose cursor passes an entry is given it. */
  lemma {:induction false} PassedWasGiven(
      settings: Settings, states: seq<System>, events: seq<Event>, k: nat, j: nat, c: int, p: nat) returns (n: nat)
    requires IsRun(settings, states, events) && k <= j < |states| && Listening(states[j].wire, c)
    requires forall x :: k <= x < j ==> !Resubscribes(events[x], c)
    requires c in states[k].wire.clients && states[k].wire.clients[c].cursor <= p
    requires p < states[j].wire.clients[c].cursor <= |states[j].wire.log|
    ensures k <= n < j && Gives(states[n], events[n], c, states[j].wire.log[p])
    decreases j
  {
    hide CanHappen, Happens, Gives, Resubscribes;
    if k == j {
      n := k;
    } else {
      assert Step(settings, states[j - 1], events[j - 1], states[j]);
      EventGrowsLog(settings, states[j - 1], events[j - 1]);
      EventSubscription(settings, states[j - 1], events[j - 1], c);
      SubscriptionSound(settings, states, events, j - 1, c);
      if p < states[j - 1].wire.clients[c].cursor {
        n := PassedWasGiven(settings, states, events, k, j - 1, c, p);
      } else {
        n := j - 1;
      }
    }
  }

  /** Of several current snapshots given, there is a last one. */
  lemma {:induction false} LastGiven(
      states: seq<System>, events: seq<Event>, n: nat, j: nat, c: int, t: TableId, src: Source) returns (k: nat)
    requires n < j <= |events| < |states| && GivesCurrent(states[n], events[n], c, t, src)
    ensures n <= k < j && GivesCurrent(states[k], events[k], c, t, src)
    ensures forall x :: k < x < j ==> !GivesCurrent(states[x], events[x], c, t, src)
    decreases j - n
  {
    hide GivesCurrent;
    if x :| n < x < j && GivesCurrent(states[x], events[x], c, t, src) {
      k := LastGiven(states, events, x, j, c, t, src);
    } else {
      k := n;
    }
  }

  /** A late retained message took the table back, and nothing current has followed. */
  ghost predicate Overtaken(states: seq<System>, events: seq<Event>, j: nat, c: int, t: TableId, src: Source)
    requires j <= |events| < |states|
  {
    exists n :: 0 <= n < j && IsLate(states[n], events[n], c, t)
                && forall k :: n < k < j ==> !GivesCurrent(states[k], events[k], c, t, src)
  }

  /** A window taken back is given an older generation than the source's. */
  lemma BackIsOlder(settings: Settings, states: seq<System>, events: seq<Event>, x: nat, j: nat, c: int, t: TableId)
    requires IsRun(settings, states, events) && x < j < |states| && GoesBack(states[x], events[x], c, t)
    ensures Given(states[x].wire, events[x].link, c).value.epoch < Src(states[j].kitchen).epoch
    ensures !GivesCurrent(states[x], events[x], c, t, Src(states[j].kitchen))
  {
    ViewIsKnown(settings, states, events, x, j, c, t);
  }

  /** After the last current snapshot it is given, a drained window that has been through one
      can be taken back only by a late retained message. */
  lemma OnlyLateGoesBack(
      settings: Settings, states: seq<System>, events: seq<Event>, k: nat, x: nat, j: nat, c: int, t: TableId, p: nat)
    requires IsRun(settings, states, events) && k < x < j < |states|
    requires Drained(states[j].wire, c) && BeenThrough(states[j].wire, c, t, p)
    requires Current(Src(states[j].kitchen), states[j].wire.log[p])
    requires GivesCurrent(states[k], events[k], c, t, Src(states[j].kitchen))
    requires forall y :: k < y < j ==> !GivesCurrent(states[y], events[y], c, t, Src(states[j].kitchen))
    requires GoesBack(states[x], events[x], c, t)
    ensures IsLate(states[x], events[x], c, t)
  {
    var src, w := Src(states[j].kitchen), states[j].wire;
    BackIsOlder(settings, states, events, x, j, c, t);
    hide GivesCurrent, IsRun, Current;
    if events[x].link.Deliver? {
      var n := ThroughWasGiven(settings, states, events, j, c, t, p);
      GivesOne(states[n], events[n], c, t, w.log[p], src);
      assert n <= k;
      DeliveredBefore(settings, states, events, x, j, c, t, p);
      var _ := PassedGivesCurrent(settings, states, events, x + 1, j, c, t, p, src);
      assert false;
    }
  }

  lemma GivesOne(s: System, e: Event, c: int, t: TableId, m: TableState, src: Source)
    requires Gives(s, e, c, m) && m.tableId == t && Current(src, m)
    ensures GivesCurrent(s, e, c, t, src)
  {
  }

  lemma PassedGivesCurrent(
      settings: Settings, states: seq<System>, events: seq<Event>, k: nat, j: nat, c: int, t: TableId, p: nat,
      src: Source)
      returns (n: nat)
    requires IsRun(settings, states, events) && k <= j < |states| && Listening(states[j].wire, c)
    requires forall x :: k <= x < j ==> !Resubscribes(events[x], c)
    requires c in states[k].wire.clients && states[k].wire.clients[c].cursor <= p
    requires p < states[j].wire.clients[c].cursor <= |states[j].wire.log|
    requires states[j].wire.log[p].tableId == t && Current(src, states[j].wire.log[p])
    ensures k <= n < j && GivesCurrent(states[n], events[n], c, t, src)
  {
    hide Current, GivesCurrent;
    n := PassedWasGiven(settings, states, events, k, j, c, p);
    GivesOne(states[n], events[n], c, t, states[j].wire.log[p], src);
  }

  /** A live entry of an older generation comes before entry `p`, so the window still has `p`
      before it. */
  lemma DeliveredBefore(
      settings: Settings, states: seq<System>, events: seq<Event>, x: nat, j: nat, c: int, t: TableId, p: nat)
    requires IsRun(settings, states, events) && x < j < |states|
    requires Drained(states[j].wire, c) && BeenThrough(states[j].wire, c, t, p)
    requires states[j].wire.log[p].epoch == Src(states[j].kitchen).epoch
    requires forall y :: x < y < j ==> !Resubscribes(events[y], c)
    requires GoesBack(states[x], events[x], c, t) && events[x].link.Deliver?
    ensures c in states[x + 1].wire.clients && states[x + 1].wire.clients[c].cursor <= p
  {
    BackIsOlder(settings, states, events, x, j, c, t);
    assert Step(settings, states[x], events[x], states[x + 1]);
    SubscriptionSound(settings, states, events, x, c);
    SubscribedSince(settings, states, events, x, j, c);
    LogGrows(settings, states, events, x, j);
    GenerationsInOrder(settings, states, events, j);
    var w := states[j].wire;
    var q := states[x].wire.clients[c].cursor;
    assert Stream(w)[q] == w.log[q] == states[x].wire.log[q] && Stream(w)[p] == w.log[p];
    assert q < p;
  }

  /** Exactly when a drained window that has been through a current snapshot of a table shows it:
      unless a retained message of an earlier generation came late and nothing current since. */
  lemma DrainedShowsExactly(
      settings: Settings, states: seq<System>, events: seq<Event>, j: nat, c: int, t: TableId, p: nat)
    requires IsRun(settings, states, events) && j < |states|
    requires Drained(states[j].wire, c) && BeenThrough(states[j].wire, c, t, p)
    requires Current(Src(states[j].kitchen), states[j].wire.log[p])
    ensures ShowsTable(Src(states[j].kitchen), states[j].wire, c, t) <==>
            !Overtaken(states, events, j, c, t, Src(states[j].kitchen))
  {
    hide ShowsTable, GivesCurrent, GoesBack, Drained, Current;
    var src := Src(states[j].kitchen);
    if ShowsTable(src, states[j].wire, c, t) && Overtaken(states, events, j, c, t, src) {
      ShownMeansGiven(settings, states, events, j, j, c, t);
      var n :| 0 <= n < j && HeldSince(states, events, n, j, c, t, src);
      var x :| 0 <= x < j && IsLate(states[x], events[x], c, t)
               && forall k :: x < k < j ==> !GivesCurrent(states[k], events[k], c, t, src);
      BackIsOlder(settings, states, events, x, j, c, t);
      assert false;
    }
    if !Overtaken(states, events, j, c, t, src) {
      var n := ThroughWasGiven(settings, states, events, j, c, t, p);
      GivesOne(states[n], events[n], c, t, states[j].wire.log[p], src);
      var k := LastGiven(states, events, n, j, c, t, src);
      forall x | k < x < j ensures !GoesBack(states[x], events[x], c, t) {
        if GoesBack(states[x], events[x], c, t) {
          OnlyLateGoesBack(settings, states, events, k, x, j, c, t, p);
        }
      }
      ShownSince(settings, states, events, k, j, j, c, t);
    }
  }

  // --- convergence ----------------------------------------------------------------------------

  /** A view shows the store: the same tables, and for each the same generation, version and
      orders. */
  ghost predicate Shows(view: TableMap, store: Store) {
    && view.Keys == store.tables.Keys
    && forall t :: t in view ==>
         && view[t].epoch == store.epoch
         && view[t].version == store.tables[t].version
         && view[t].orders == store.tables[t].orders
  }

  lemma ShowsAll(settings: Settings, states: seq<System>, events: seq<Event>, j: nat, c: int)
    requires IsRun(settings, states, events) && j < |states| && c in states[j].wire.clients
    requires forall t :: t in states[j].kitchen.store.tables ==>
               ShowsTable(Src(states[j].kitchen), states[j].wire, c, t)
    ensures Shows(states[j].wire.clients[c].view, states[j].kitchen.store)
  {
    var view := states[j].wire.clients[c].view;
    forall t | t in view ensures t in states[j].kitchen.store.tables && view[t].tableId == t {
      ViewIsKnown(settings, states, events, j, j, c, t);
    }
    forall t | t in states[j].kitchen.store.tables ensures t in view {
      assert ShowsTable(Src(states[j].kitchen), states[j].wire, c, t);
    }
  }

  /** After an announce on a live link with nothing lost since, a drained window subscribed
      all the time has been through a current snapshot of every table, given after the
      announce began. */
  lemma AnnounceGoesThrough(
      settings: Settings, states: seq<System>, events: seq<Event>, i: nat, j: nat, c: int, t: TableId)
      returns (p: nat, n: nat)
    requires IsRun(settings, states, events) && i < j < |states| && t in states[j].kitchen.store.tables
    requires events[i].KitchenActs? && events[i].action.AnnounceStart? && states[i].wire.up
    requires Listening(states[i].wire, c)
    requires forall x :: i < x < j ==> Lossless(settings, states[x], events[x])
    requires forall x :: i <= x < j ==> !Resubscribes(events[x], c)
    requires Todo(states[j].kitchen) == [] && Drained(states[j].wire, c)
    ensures BeenThrough(states[j].wire, c, t, p) && Current(Src(states[j].kitchen), states[j].wire.log[p])
    ensures i <= n < j && GivesCurrent(states[n], events[n], c, t, Src(states[j].kitchen))
  {
    hide Lossless, Resubscribes;
    var src, w := Src(states[j].kitchen), states[j].wire;
    StreamCovers(settings, states, events, i, j, t);
    assert Covered(src, Stream(w), |Stream(states[i].wire)|, t) && Stream(w) == w.log;
    p :| |Stream(states[i].wire)| <= p < |w.log| && w.log[p].tableId == t && Current(src, w.log[p]);
    SubscribedSince(settings, states, events, i, j, c);
    SubscriptionSound(settings, states, events, i, c);
    n := PassedGivesCurrent(settings, states, events, i, j, c, t, p, src);
  }

  /** Convergence, exactly. Whatever happened before, and whatever accepts, finishes, resets and
      redeliveries happen during and after: once an announce begun on a live link has been
      published and nothing has been lost since it began, a window subscribed all that time that
      has received what was sent shows a table as the store holds it, unless a retained message
      of an earlier generation came to it late and nothing current has come since. */
  lemma WindowsConvergeExactly(
      settings: Settings, states: seq<System>, events: seq<Event>, i: nat, j: nat, c: int, t: TableId)
    requires IsRun(settings, states, events) && i < j < |states| && t in states[j].kitchen.store.tables
    requires events[i].KitchenActs? && events[i].action.AnnounceStart? && states[i].wire.up
    requires Listening(states[i].wire, c)
    requires forall n :: i < n < j ==> Lossless(settings, states[n], events[n])
    requires forall n :: i <= n < j ==> !Resubscribes(events[n], c)
    requires Todo(states[j].kitchen) == [] && Drained(states[j].wire, c)
    ensures ShowsTable(Src(states[j].kitchen), states[j].wire, c, t) <==>
            !Overtaken(states, events, j, c, t, Src(states[j].kitchen))
  {
    hide Lossless, Resubscribes, Drained, Overtaken;
    var p, _ := AnnounceGoesThrough(settings, states, events, i, j, c, t);
    DrainedShowsExactly(settings, states, events, j, c, t, p);
  }

  /** So, if no retained message comes late after the announce begins, the window shows exactly
      the store. */
  lemma WindowsConverge(settings: Settings, states: seq<System>, events: seq<Event>, i: nat, j: nat, c: int)
    requires IsRun(settings, states, events) && i < j < |states|
    requires events[i].KitchenActs? && events[i].action.AnnounceStart? && states[i].wire.up
    requires Listening(states[i].wire, c)
    requires forall n :: i < n < j ==> Lossless(settings, states[n], events[n])
    requires forall n :: i <= n < j ==> !Resubscribes(events[n], c)
    requires forall n, t :: i <= n < j ==> !IsLate(states[n], events[n], c, t)
    requires Todo(states[j].kitchen) == [] && Drained(states[j].wire, c)
    ensures Shows(states[j].wire.clients[c].view, states[j].kitchen.store)
  {
    hide Lossless, Resubscribes, IsLate, ShowsTable, GivesCurrent, CanHappen, Happens;
    var src := Src(states[j].kitchen);
    forall t | t in states[j].kitchen.store.tables ensures ShowsTable(src, states[j].wire, c, t) {
      WindowsConvergeExactly(settings, states, events, i, j, c, t);
      var _, n := AnnounceGoesThrough(settings, states, events, i, j, c, t);
      NotOvertaken(states, events, i, j, c, t, src, n);
    }
    ShowsAll(settings, states, events, j, c);
  }

  lemma NotOvertaken(
      states: seq<System>, events: seq<Event>, i: nat, j: nat, c: int, t: TableId, src: Source, n: nat)
    requires i <= n < j <= |events| < |states| && GivesCurrent(states[n], events[n], c, t, src)
    requires forall x, u :: i <= x < j ==> !IsLate(states[x], events[x], c, u)
    ensures !Overtaken(states, events, j, c, t, src)
  {
    hide GivesCurrent, IsLate;
  }

  /** Any two windows that have converged agree, table by table. */
  lemma WindowsAgree(settings: Settings, states: seq<System>, events: seq<Event>, j: nat, c: int, d: int)
    requires IsRun(settings, states, events) && j < |states|
    requires c in states[j].wire.clients && Shows(states[j].wire.clients[c].view, states[j].kitchen.store)
    requires d in states[j].wire.clients && Shows(states[j].wire.clients[d].view, states[j].kitchen.store)
    ensures var a, b := states[j].wire.clients[c].view, states[j].wire.clients[d].view;
            a.Keys == b.Keys && forall t :: t in a ==> SameStamp(a[t], b[t]) && a[t].orders == b[t].orders
  {
    forall t | t in states[j].wire.clients[c].view
      ensures states[j].wire.clients[c].view[t].tableId == t && states[j].wire.clients[d].view[t].tableId == t
    {
      ViewIsKnown(settings, states, events, j, j, c, t);
      ViewIsKnown(settings, states, events, j, j, d, t);
    }
  }

  // --- windows that go back -------------------------------------------------------------------

  lemma OpenedEmpty(settings: Settings, s: System, e: Event, c: int)
    requires CanHappen(settings, s, e) && c !in s.wire.clients && c in Happens(settings, s, e).wire.clients
    ensures Reached(Happens(settings, s, e).wire.log, Happens(settings, s, e).wire.clients[c])
  {
    hide Next, EffectOf, NextWire, Slots;
    if e.KitchenActs? {
      KitchenLeavesWindows(settings, s, e);
    }
  }

  lemma EventReached(settings: Settings, s: System, e: Event, c: int)
    requires CanHappen(settings, s, e) && Windows(s.wire)
    requires c in s.wire.clients && Reached(s.wire.log, s.wire.clients[c]) && !RedeliversTo(e, c)
    ensures c in Happens(settings, s, e).wire.clients
    ensures Reached(Happens(settings, s, e).wire.log, Happens(settings, s, e).wire.clients[c])
  {
    hide Next, EffectOf, NextWire, NextLink, Reached;
    if e.LinkActs? {
      ReachedStays(s.wire, e.link, c);
    } else {
      KitchenLeavesWindows(settings, s, e);
    }
  }

  /** A window is opened empty, so without redelivery all it shows is what it has reached. */
  lemma {:induction false} AlwaysReached(
      settings: Settings, states: seq<System>, events: seq<Event>, i: nat, c: int)
    requires IsRun(settings, states, events) && i < |states| && c in states[i].wire.clients
    requires forall n :: 0 <= n < i ==> !RedeliversTo(events[n], c)
    ensures Reached(states[i].wire.log, states[i].wire.clients[c])
  {
    hide Reached, Windows, CanHappen, Happens, RedeliversTo;
    if i == 0 {
      assert false;
    } else {
      assert Step(settings, states[i - 1], events[i - 1], states[i]);
      RunSound(settings, states, events, i - 1);
      if c in states[i - 1].wire.clients {
        AlwaysReached(settings, states, events, i - 1, c);
        EventReached(settings, states[i - 1], events[i - 1], c);
      } else {
        OpenedEmpty(settings, states[i - 1], events[i - 1], c);
      }
    }
  }

  /** Live messages come in order, so only a late retained one is of an earlier generation. */
  lemma LiveNeverGoesBack(settings: Settings, states: seq<System>, events: seq<Event>, n: nat, c: int, t: TableId)
    requires IsRun(settings, states, events) && n < |events|
    requires forall x :: 0 <= x < n ==> !RedeliversTo(events[x], c)
    requires GoesBack(states[n], events[n], c, t)
    ensures IsLate(states[n], events[n], c, t)
  {
    hide RedeliversTo;
    AlwaysReached(settings, states, events, n, c);
    GenerationsInOrder(settings, states, events, n);
    var w := states[n].wire;
    hide IsRun, Reached;
    if events[n].link.Deliver? {
      NextIsNoOlder(w, c, t);
    }
  }

  lemma NextIsNoOlder(w: Wire, c: int, t: TableId)
    requires InOrder(Stream(w)) && Listening(w, c) && w.clients[c].cursor < |w.log|
    requires Reached(w.log, w.clients[c]) && t in w.clients[c].view
    ensures w.clients[c].view[t].epoch <= w.log[w.clients[c].cursor].epoch
  {
    var q := w.clients[c].cursor;
    var k :| 0 <= k < q && w.log[..q][k] == w.clients[c].view[t];
    assert Stream(w)[k] == w.log[k] && Stream(w)[q] == w.log[q];
  }

  /** Exactly when a window the broker does not redeliver to goes back: when it is given a
      retained message late. */
  lemma GoesBackExactly(settings: Settings, states: seq<System>, events: seq<Event>, n: nat, c: int)
    requires IsRun(settings, states, events) && n < |events| && c in states[n].wire.clients
    requires forall x :: 0 <= x <= n ==> !RedeliversTo(events[x], c)
    ensures c in states[n + 1].wire.clients
    ensures NeverBack(states[n].wire.clients[c].view, states[n + 1].wire.clients[c].view) <==>
            forall t :: !IsLate(states[n], events[n], c, t)
  {
    hide NeverBack, CanHappen, Happens, RedeliversTo;
    var s, e := states[n], events[n];
    assert Step(settings, s, e, states[n + 1]);
    EventKeepsWindow(settings, s, e, c);
    EventView(settings, s, e, c);
    if e.LinkActs? && Given(s.wire, e.link, c).Some? {
      var m := Given(s.wire, e.link, c).value;
      BackExactly(s.wire.clients[c].view, m);
      if m.tableId in s.wire.clients[c].view && m.epoch < s.wire.clients[c].view[m.tableId].epoch {
        LiveNeverGoesBack(settings, states, events, n, c, m.tableId);
      }
    } else {
      NeverBackReflexive(s.wire.clients[c].view);
    }
  }

  lemma NeverBackReflexive(a: TableMap)
    ensures NeverBack(a, a)
  {
  }

  lemma NeverBackTrans(a: TableMap, b: TableMap, c: TableMap)
    requires NeverBack(a, b) && NeverBack(b, c)
    ensures NeverBack(a, c)
  {
    forall t | t in a ensures t in c && NoNewer(a[t], c[t]) {
      assert NoNewer(a[t], b[t]) && NoNewer(b[t], c[t]);
    }
  }

  /** A window the broker neither redelivers to nor gives a retained message late never shows a
      table going back: not to an earlier generation, nor to an earlier version within one. */
  lemma {:induction false} WindowNeverGoesBack(
      settings: Settings, states: seq<System>, events: seq<Event>, i: nat, j: nat, c: int)
    requires IsRun(settings, states, events) && i <= j < |states| && c in states[i].wire.clients
    requires forall n :: 0 <= n < j ==> !RedeliversTo(events[n], c)
    requires forall n, t :: i <= n < j ==> !IsLate(states[n], events[n], c, t)
    ensures c in states[j].wire.clients
    ensures NeverBack(states[i].wire.clients[c].view, states[j].wire.clients[c].view)
  {
    hide NeverBack, CanHappen, Happens, RedeliversTo, IsLate;
    if i == j {
      NeverBackReflexive(states[i].wire.clients[c].view);
    } else {
      WindowNeverGoesBack(settings, states, events, i, j - 1, c);
      GoesBackExactly(settings, states, events, j - 1, c);
      NeverBackTrans(states[i].wire.clients[c].view, states[j - 1].wire.clients[c].view,
                     states[j].wire.clients[c].view);
    }
  }
}
