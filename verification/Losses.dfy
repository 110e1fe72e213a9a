/** What becomes of a publish that is lost while the session stays up. */
module Losses {
  import opened Models
  import opened StoreModel
  import opened KitchenModel
  import opened KitchenInvariants
  import opened Replication
  import opened Convergence
  import opened RestaurantSystem
  import opened Runs
  import opened BrowserWindows

  /** The event hands the snapshot to a link that takes it. */
  predicate Hands(settings: Settings, s: System, e: Event, m: TableState) {
    && e.KitchenActs? && e.handed && Enabled(settings, s.kitchen, e.action)
    && Sent(settings, s.kitchen, e.action) == Some(m)
  }

  /** The event hands over a snapshot of the table that is current with respect to `src`. */
  ghost predicate HandsCurrent(settings: Settings, s: System, e: Event, t: TableId, src: Source) {
    exists m :: Hands(settings, s, e, m) && m.tableId == t && Current(src, m)
  }

  /** The event takes down the link, or the process with it. */
  predicate Disconnects(e: Event) {
    match e
    case KitchenActs(a, _) => a.Restart?
    case LinkActs(a) => a.Cut?
  }

  // --- no resync while the session stays up ---------------------------------------------------

  predicate InSession(s: System) {
    s.wire.up && !s.kitchen.main.Offline? && !s.kitchen.main.Subscribing?
  }

  lemma StaysInSession(settings: Settings, s: System, e: Event)
    requires InSession(s) && CanHappen(settings, s, e) && !Disconnects(e)
    ensures InSession(Happens(settings, s, e))
    ensures !(e.KitchenActs? && e.action.AnnounceStart?)
  {
    hide TryAccept, FinishOrder, AllSnapshots, Slots;
  }

  /** Once a session has announced, nothing announces again until the link is lost: a publish
      lost meanwhile is not made good by any resync. */
  lemma {:induction false} NoResyncWhileUp(
      settings: Settings, states: seq<System>, events: seq<Event>, n: nat, j: nat)
    requires IsRun(settings, states, events) && n <= j < |states| && InSession(states[n])
    requires forall x :: n <= x < j ==> !Disconnects(events[x])
    ensures InSession(states[j])
    ensures forall x :: n <= x < j ==> !(events[x].KitchenActs? && events[x].action.AnnounceStart?)
  {
    hide CanHappen, Happens, InSession, Disconnects;
    if n == j {
    } else {
      NoResyncWhileUp(settings, states, events, n, j - 1);
      assert Step(settings, states[j - 1], events[j - 1], states[j]);
      StaysInSession(settings, states[j - 1], events[j - 1]);
    }
  }

  // --- the source only advances ---------------------------------------------------------------

  /** The table is no further on in `a` than in `b`. */
  predicate NoFurther(a: Source, b: Source, t: TableId) {
    && t in a.tables && t in b.tables
    && (a.epoch < b.epoch || (a.epoch == b.epoch && a.tables[t].version <= b.tables[t].version))
  }

  lemma EffectAdvances(src: Source, e: Effect, t: TableId)
    requires Possible(src, e) && t in src.tables
    ensures NoFurther(src, NextSource(src, e), t)
  {
  }

  lemma EventAdvances(settings: Settings, s: System, e: Event, t: TableId)
    requires SystemInv(settings, s) && CanHappen(settings, s, e) && t in s.kitchen.store.tables
    ensures NoFurther(Src(s.kitchen), Src(Happens(settings, s, e).kitchen), t)
  {
    hide Inv, ReplicationInv, EffectOf, NextSource, Next, NextWire, NextLink;
    if e.KitchenActs? {
      KitchenExplained(settings, s.kitchen, e.action);
      EffectAdvances(Src(s.kitchen), EffectOf(settings, s.kitchen, e.action), t);
    }
  }

  lemma {:induction false} SourceAdvances(
      settings: Settings, states: seq<System>, events: seq<Event>, i: nat, j: nat, t: TableId)
    requires IsRun(settings, states, events) && i <= j < |states| && t in states[i].kitchen.store.tables
    ensures NoFurther(Src(states[i].kitchen), Src(states[j].kitchen), t)
  {
    hide SystemInv, CanHappen, Happens;
    if i == j {
    } else {
      SourceAdvances(settings, states, events, i, j - 1, t);
      RunSound(settings, states, events, j - 1);
      assert Step(settings, states[j - 1], events[j - 1], states[j]);
      EventAdvances(settings, states[j - 1], events[j - 1], t);
    }
  }

  // --- the stream holds what was handed over --------------------------------------------------

  /** What enters the stream was handed over; without a disconnection it stays. */
  lemma EventStream(settings: Settings, s: System, e: Event)
    requires SystemInv(settings, s) && CanHappen(settings, s, e)
    ensures var before, after := Stream(s.wire), Stream(Happens(settings, s, e).wire);
            && (forall m :: m in after && m !in before ==> Hands(settings, s, e, m))
            && (!Disconnects(e) ==> before <= after)
            && (forall m :: Hands(settings, s, e, m) && !Disconnects(e) ==> after == before + [m])
            && ((forall m :: !Hands(settings, s, e, m)) && !Disconnects(e) ==> after == before)
  {
    if e.KitchenActs? {
      hide Inv, ReplicationInv, EffectOf, NextSource, Next, Sent;
      KitchenExplained(settings, s.kitchen, e.action);
      var effect := EffectOf(settings, s.kitchen, e.action);
      StreamAfterEffect(Src(s.kitchen), s.wire, effect, e.handed);
      assert e.handed && Emission(Src(s.kitchen), effect).Some? ==>
               Hands(settings, s, e, Emission(Src(s.kitchen), effect).value);
      RestartIsRelaunch(settings, s.kitchen, e.action);
    } else {
      hide Inv, ReplicationInv, Slots;
      StreamAfterLink(s.wire, e.link);
    }
  }

  lemma RestartIsRelaunch(settings: Settings, k: Kitchen, a: Action)
    requires Enabled(settings, k, a)
    ensures EffectOf(settings, k, a).Relaunch? <==> a.Restart?
  {
    hide TryAccept, FinishOrder;
  }

  lemma StreamAfterEffect(src: Source, w: Wire, e: Effect, handed: bool)
    requires Possible(src, e)
    ensures var after := Stream(NextWire(src, w, e, handed));
            if e.Relaunch? then after == w.log
            else if handed && Emission(src, e).Some? then after == Stream(w) + [Emission(src, e).value]
            else after == Stream(w)
  {
    assert w.log + (w.pipe + []) == Stream(w);
  }

  lemma StreamAfterLink(w: Wire, a: LinkAction)
    requires LinkEnabled(w, a)
    ensures Stream(NextLink(w, a)) == if a.Cut? then w.log else Stream(w)
  {
  }

  /** What the stream holds at `j` but not at `i` was handed over in between. */
  lemma {:induction false} StreamWasHanded(
      settings: Settings, states: seq<System>, events: seq<Event>, i: nat, j: nat, m: TableState) returns (n: nat)
    requires IsRun(settings, states, events) && i <= j < |states|
    requires m in Stream(states[j].wire) && m !in Stream(states[i].wire)
    ensures i <= n < j && Hands(settings, states[n], events[n], m)
    decreases j
  {
    hide SystemInv, CanHappen, Happens, Hands, Stream;
    n := i;
    if i == j {
      assert false;
    } else {
      RunSound(settings, states, events, j - 1);
      assert Step(settings, states[j - 1], events[j - 1], states[j]);
      EventStream(settings, states[j - 1], events[j - 1]);
      if m in Stream(states[j - 1].wire) {
        n := StreamWasHanded(settings, states, events, i, j - 1, m);
      } else {
        n := j - 1;
      }
    }
  }

  /** Without a disconnection the stream only grows. */
  lemma {:induction false} StreamGrows(settings: Settings, states: seq<System>, events: seq<Event>, i: nat, j: nat)
    requires IsRun(settings, states, events) && i <= j < |states|
    requires forall x :: i <= x < j ==> !Disconnects(events[x])
    ensures Stream(states[i].wire) <= Stream(states[j].wire)
  {
    hide SystemInv, CanHappen, Happens, Hands, Stream, Disconnects;
    if i == j {
    } else {
      StreamGrows(settings, states, events, i, j - 1);
      RunSound(settings, states, events, j - 1);
      assert Step(settings, states[j - 1], events[j - 1], states[j]);
      EventStream(settings, states[j - 1], events[j - 1]);
    }
  }

  // --- lost until published again -------------------------------------------------------------

  /** The event changes the table, and what it publishes is lost. */
  predicate LosesChange(s: System, e: Event, s': System, t: TableId) {
    && e.KitchenActs? && !e.handed && !Disconnects(e)
    && t in s.kitchen.store.tables
    && NoFurther(Src(s.kitchen), Src(s'.kitchen), t) && !NoFurther(Src(s'.kitchen), Src(s.kitchen), t)
  }

  /** Nothing in the stream when a change is lost will ever be current again. */
  lemma StreamIsOutdated(
      settings: Settings, states: seq<System>, events: seq<Event>, n: nat, j: nat, t: TableId, m: TableState)
    requires IsRun(settings, states, events) && n < j < |states|
    requires LosesChange(states[n], events[n], states[n + 1], t)
    requires m in Stream(states[n].wire) && m.tableId == t
    ensures !Current(Src(states[j].kitchen), m)
  {
    SourceAdvances(settings, states, events, n + 1, j, t);
    RunSound(settings, states, events, n);
    hide IsRun, Inv;
    assert NotAhead(Src(states[n].kitchen), m);
  }

  /** A snapshot handed over since, without a disconnection, has gone through a drained window. */
  lemma HandedGoesThrough(
      settings: Settings, states: seq<System>, events: seq<Event>, n: nat, x: nat, j: nat, c: int, t: TableId)
      returns (p: nat, k: nat)
    requires IsRun(settings, states, events) && n < x < j < |states|
    requires forall y :: n < y < j ==> !Disconnects(events[y])
    requires Listening(states[n].wire, c)
    requires forall y :: n <= y < j ==> !Resubscribes(events[y], c)
    requires Drained(states[j].wire, c)
    requires HandsCurrent(settings, states[x], events[x], t, Src(states[j].kitchen))
    ensures BeenThrough(states[j].wire, c, t, p) && Current(Src(states[j].kitchen), states[j].wire.log[p])
    ensures n <= k < j && GivesCurrent(states[k], events[k], c, t, Src(states[j].kitchen))
  {
    hide CanHappen, Happens, Hands, Disconnects, Resubscribes, GivesCurrent, Current, LastIndex;
    var src, w := Src(states[j].kitchen), states[j].wire;
    var m :| Hands(settings, states[x], events[x], m) && m.tableId == t && Current(src, m);
    RunSound(settings, states, events, x);
    assert Step(settings, states[x], events[x], states[x + 1]);
    EventStream(settings, states[x], events[x]);
    StreamGrows(settings, states, events, x + 1, j);
    LogGrows(settings, states, events, n, x);
    SubscribedSince(settings, states, events, n, j, c);
    SubscriptionSound(settings, states, events, n, c);
    hide IsRun, SystemInv;
    p := |Stream(states[x].wire)|;
    assert Stream(w) == w.log;
    assert w.log[p] == m && p >= |states[x].wire.log| >= |states[n].wire.log|;
    k := PassedGivesCurrent(settings, states, events, n, j, c, t, p, src);
  }

  /** A change whose publish is lost while the session stays up is not made good by itself. From
      then on a drained window, not upset by a late retained message, shows the table as the
      store holds it exactly if some later publish handed over the table's present state. */
  lemma LostUntilRepublished(
      settings: Settings, states: seq<System>, events: seq<Event>, n: nat, j: nat, c: int, t: TableId)
    requires IsRun(settings, states, events) && n < j < |states|
    requires LosesChange(states[n], events[n], states[n + 1], t)
    requires forall x :: n < x < j ==> !Disconnects(events[x])
    requires Listening(states[n].wire, c)
    requires forall x :: n <= x < j ==> !Resubscribes(events[x], c)
    requires forall x, u :: n <= x < j ==> !IsLate(states[x], events[x], c, u)
    requires Drained(states[j].wire, c)
    ensures ShowsTable(Src(states[j].kitchen), states[j].wire, c, t) <==>
            exists x :: n < x < j && HandsCurrent(settings, states[x], events[x], t, Src(states[j].kitchen))
  {
    hide CanHappen, Happens, ShowsTable, HandsCurrent, Drained, IsLate, LosesChange, Disconnects, Resubscribes,
         GivesCurrent;
    var src := Src(states[j].kitchen);
    if x :| n < x < j && HandsCurrent(settings, states[x], events[x], t, src) {
      var p, k := HandedGoesThrough(settings, states, events, n, x, j, c, t);
      NotOvertaken(states, events, n, j, c, t, src, k);
      DrainedShowsExactly(settings, states, events, j, c, t, p);
    }
    if ShowsTable(src, states[j].wire, c, t) {
      ShownWasHanded(settings, states, events, n, j, c, t);
    }
  }

  /** What a window shows after a lost change was handed over after it. */
  lemma ShownWasHanded(
      settings: Settings, states: seq<System>, events: seq<Event>, n: nat, j: nat, c: int, t: TableId)
    requires IsRun(settings, states, events) && n < j < |states|
    requires LosesChange(states[n], events[n], states[n + 1], t)
    requires ShowsTable(Src(states[j].kitchen), states[j].wire, c, t)
    ensures exists x :: n < x < j && HandsCurrent(settings, states[x], events[x], t, Src(states[j].kitchen))
  {
    hide CanHappen, Happens, Hands, Current, NotAhead;
    var src := Src(states[j].kitchen);
    ViewIsKnown(settings, states, events, j, j, c, t);
    var m := states[j].wire.clients[c].view[t];
    if m in Stream(states[n].wire) {
      StreamIsOutdated(settings, states, events, n, j, t, m);
      assert false;
    } else {
      var x := StreamWasHanded(settings, states, events, n, j, m);
      assert HandsCurrent(settings, states[x], events[x], t, src);
      NotHandedWhenLost(settings, states[n], events[n], states[n + 1], t);
    }
  }

  lemma NotHandedWhenLost(settings: Settings, s: System, e: Event, s': System, t: TableId)
    requires LosesChange(s, e, s', t)
    ensures forall m :: !Hands(settings, s, e, m)
  {
  }
}
