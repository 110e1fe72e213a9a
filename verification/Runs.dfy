/** Whole runs of the restaurant, from start-up through any interleaving of orders, cooks,
    resets, losses, restarts and redeliveries, and what holds all along them. */
module Runs {
  import opened Models
  import opened StoreModel
  import opened KitchenModel
  import opened KitchenInvariants
  import opened Replication
  import opened RestaurantSystem

  ghost predicate Step(settings: Settings, s: System, e: Event, s': System) {
    CanHappen(settings, s, e) && s' == Happens(settings, s, e)
  }

  ghost predicate IsRun(settings: Settings, states: seq<System>, events: seq<Event>) {
    && |states| == |events| + 1
    && states[0] == Start(settings, states[0].kitchen.now)
    && forall i :: 0 <= i < |events| ==> Step(settings, states[i], events[i], states[i + 1])
  }

  /** Every state of every run is sound. */
  lemma {:induction false} RunSound(settings: Settings, states: seq<System>, events: seq<Event>, i: nat)
    requires IsRun(settings, states, events) && i < |states|
    ensures SystemInv(settings, states[i])
  {
    hide SystemInv, CanHappen, Happens;
    if i == 0 {
      StartSound(settings, states[0].kitchen.now);
    } else {
      RunSound(settings, states, events, i - 1);
      assert Step(settings, states[i - 1], events[i - 1], states[i]);
      HappensKeeps(settings, states[i - 1], events[i - 1]);
    }
  }

  // --- convergence --------------------------------------------------------------------------

  /** The event leaves every window with all it should receive: nothing published is lost,
      nothing taken for publishing is given up, the link holds. */
  predicate Lossless(settings: Settings, s: System, e: Event) {
    match e
    case KitchenActs(a, handed) =>
      && Enabled(settings, s.kitchen, a)
      && (Sent(settings, s.kitchen, a) == None || handed)
      && !a.ResetRaise? && !a.Stop? && !a.Restart?
    case LinkActs(a) => !a.Cut?
  }

  lemma SourceStaysIntact(src: Source, w: Wire, e: Effect, handed: bool)
    requires ReplicationInv(src, w) && Possible(src, e) && w.intact
    requires !e.Abandon? && !e.Relaunch? && (Emission(src, e) == None || handed)
    ensures NextWire(src, w, e, handed).intact && w.mark <= NextWire(src, w, e, handed).mark
  {
  }

  lemma StaysIntact(settings: Settings, s: System, e: Event)
    requires SystemInv(settings, s) && CanHappen(settings, s, e)
    requires s.wire.intact && Lossless(settings, s, e)
    ensures var w := Happens(settings, s, e).wire; w.intact && s.wire.mark <= w.mark
  {
    hide Inv, ReplicationInv, Possible;
    if e.KitchenActs? {
      KitchenExplained(settings, s.kitchen, e.action);
      hide Sent, Next, NextSource, Emission, NextWire;
      SourceStaysIntact(Src(s.kitchen), s.wire, EffectOf(settings, s.kitchen, e.action), e.handed);
    }
  }

  /** An announce begun on a live link marks the stream. */
  lemma AnnounceMarks(settings: Settings, s: System, e: Event)
    requires CanHappen(settings, s, e) && e.KitchenActs? && e.action.AnnounceStart? && s.wire.up
    ensures var w := Happens(settings, s, e).wire;
            w.intact && w.mark == |Stream(s.wire)| && w.clients == s.wire.clients
  {
    hide AllSnapshots;
  }

  /** From there on, as long as nothing is lost, every later publish builds on that announce. */
  lemma {:induction false} IntactSinceAnnounce(settings: Settings, states: seq<System>, events: seq<Event>,
                                               i: nat, j: nat)
    requires IsRun(settings, states, events) && i < j < |states|
    requires events[i].KitchenActs? && events[i].action.AnnounceStart? && states[i].wire.up
    requires forall n :: i < n < j ==> Lossless(settings, states[n], events[n])
    ensures states[j].wire.intact && states[j].wire.mark >= |Stream(states[i].wire)|
  {
    hide Lossless, SystemInv, CanHappen, Happens;
    assert Step(settings, states[j - 1], events[j - 1], states[j]);
    if j == i + 1 {
      AnnounceMarks(settings, states[i], events[i]);
    } else {
      RunSound(settings, states, events, j - 1);
      IntactSinceAnnounce(settings, states, events, i, j - 1);
      StaysIntact(settings, states[j - 1], events[j - 1]);
    }
  }

  /** So the stream holds, from that announce on, every table's present state, or the snapshot
      that says it is still to be published. */
  lemma StreamCovers(settings: Settings, states: seq<System>, events: seq<Event>, i: nat, j: nat, t: TableId)
    requires IsRun(settings, states, events) && i < j < |states| && t in states[j].kitchen.store.tables
    requires events[i].KitchenActs? && events[i].action.AnnounceStart? && states[i].wire.up
    requires forall n :: i < n < j ==> Lossless(settings, states[n], events[n])
    ensures var src := Src(states[j].kitchen);
            Covered(src, Stream(states[j].wire), |Stream(states[i].wire)|, t) || Pending(src, t)
  {
    IntactSinceAnnounce(settings, states, events, i, j);
    RunSound(settings, states, events, j);
    var src, w := Src(states[j].kitchen), states[j].wire;
    assert Coverage(src, w);
    if Covered(src, Stream(w), w.mark, t) {
      var n :| w.mark <= n < |Stream(w)| && Stream(w)[n].tableId == t && Current(src, Stream(w)[n]);
      assert n >= |Stream(states[i].wire)|;
    }
  }

  // --- generations and versions -------------------------------------------------------------

  /** The broker never receives a message of an earlier generation after a later one. */
  lemma GenerationsInOrder(settings: Settings, states: seq<System>, events: seq<Event>, i: nat)
    requires IsRun(settings, states, events) && i < |states|
    ensures InOrder(Stream(states[i].wire))
  {
    RunSound(settings, states, events, i);
  }

  lemma EventTakes(settings: Settings, s: System, e: Event)
    requires CanHappen(settings, s, e)
    ensures s.wire.taken <= Happens(settings, s, e).wire.taken
  {
    hide Enabled, Next, EffectOf, Slots;
  }

  lemma {:induction false} TakenGrows(settings: Settings, states: seq<System>, events: seq<Event>, i: nat, j: nat)
    requires IsRun(settings, states, events) && i <= j < |states|
    ensures states[i].wire.taken <= states[j].wire.taken
  {
    hide CanHappen, Happens;
    if i == j {
    } else {
      TakenGrows(settings, states, events, i, j - 1);
      assert Step(settings, states[j - 1], events[j - 1], states[j]);
      EventTakes(settings, states[j - 1], events[j - 1]);
    }
  }

  /** A version determines content: two snapshots of a table taken anywhere in a run with the
      same generation and version list the same orders. */
  lemma SnapshotsAgree(settings: Settings, states: seq<System>, events: seq<Event>, i: nat, j: nat,
                       a: TableState, b: TableState)
    requires IsRun(settings, states, events) && i < |states| && j < |states|
    requires a in states[i].wire.taken && b in states[j].wire.taken && SameStamp(a, b)
    ensures a.orders == b.orders
  {
    var n := |states| - 1;
    TakenGrows(settings, states, events, i, n);
    TakenGrows(settings, states, events, j, n);
    RunSound(settings, states, events, n);
  }
}
