/** The session protocol: connecting, announcing, consuming, losing the link and saying goodbye,
    and what keeping to it means. */
module Session {
  import opened Models
  import opened HeapStore
  import opened HeapKitchen
  import opened KitchenInvariants
  import opened KitchenProofs
  import K = KitchenModel
  import M = StoreModel

  // --- what happens in a run ------------------------------------------------------------------

  datatype Event =
    | Attach
    | Detach
    | Act(moment: Moment)
    | Answer(delivery: Delivery, messages: seq<Message>)
    | Goodbye(delivery: Delivery)

  predicate Possible(settings: Settings, w: World, e: Event) {
    match e
    case Attach => w.kitchen.main.Offline? && !w.attached
    case Act(m) => K.Enabled(settings, w.kitchen, m.action)
    case _ => true
  }

  function MainAfterDetach(m: K.Main): K.Main {
    if m.Idle? || m.Subscribing? then K.Offline else m
  }

  function After(settings: Settings, w: World, e: Event): World
    requires Possible(settings, w, e)
  {
    match e
    case Attach => w.(kitchen := w.kitchen.(main := K.Subscribing), attached := true)
    case Detach => w.(kitchen := w.kitchen.(main := MainAfterDetach(w.kitchen.main)), attached := false)
    case Act(m) => Step(settings, w, m)
    case Answer(delivery, messages) => Took(w, delivery, messages)
    case Goodbye(delivery) => Took(w, delivery, [StatusMessage(false)])
  }

  ghost predicate Follows(settings: Settings, w: World, events: seq<Event>, w': World)
    decreases |events|
  {
    if events == [] then w == w'
    else Possible(settings, w, events[0]) && Follows(settings, After(settings, w, events[0]), events[1..], w')
  }

  function Acts(trace: seq<Moment>): (r: seq<Event>)
    ensures |r| == |trace|
    ensures forall i :: 0 <= i < |r| ==> r[i] == Act(trace[i])
  {
    seq(|trace|, i requires 0 <= i < |trace| => Act(trace[i]))
  }

  lemma {:induction false} FollowsThen(settings: Settings, a: World, s: seq<Event>, b: World, t: seq<Event>, c: World)
    requires Follows(settings, a, s, b) && Follows(settings, b, t, c)
    ensures Follows(settings, a, s + t, c)
    decreases |s|
  {
    hide After, Possible;
    if s == [] {
      assert s + t == t;
    } else {
      assert (s + t)[1..] == s[1..] + t;
      FollowsThen(settings, After(settings, a, s[0]), s[1..], b, t, c);
    }
  }

  lemma {:induction false} FollowsActs(settings: Settings, w: World, trace: seq<Moment>, w': World)
    requires Performs(settings, w, trace, w')
    ensures Follows(settings, w, Acts(trace), w')
    decreases |trace|
  {
    hide Step, K.Enabled;
    if trace == [] {
    } else {
      FollowsActs(settings, Step(settings, w, trace[0]), trace[1..], w');
      assert Acts(trace)[1..] == Acts(trace[1..]);
    }
  }

  /** A session's events are the kitchen's own actions, so they keep the kitchen's invariant. */
  lemma {:induction false} FollowsKeeps(settings: Settings, w: World, events: seq<Event>, w': World)
    requires Follows(settings, w, events, w') && Inv(settings, w.kitchen)
    ensures Inv(settings, w'.kitchen)
    decreases |events|
  {
    hide Inv, Step;
    if events == [] {
    } else {
      EventKeeps(settings, w, events[0]);
      FollowsKeeps(settings, After(settings, w, events[0]), events[1..], w');
    }
  }

  lemma EventKeeps(settings: Settings, w: World, e: Event)
    requires Possible(settings, w, e) && Inv(settings, w.kitchen)
    ensures Inv(settings, After(settings, w, e).kitchen)
  {
    hide Inv;
    var k := w.kitchen;
    match e
    case Attach => StepKeeps(settings, k, K.Connect);
    case Detach =>
      if k.main.Idle? || k.main.Subscribing? {
        StepKeeps(settings, k, K.SessionEnd);
      }
    case Act(m) => StepKeeps(settings, k, m.action);
    case _ =>
  }

  // --- the protocol ---------------------------------------------------------------------------

  /** Where a session stands. */
  datatype Phase =
    | Between              // no client
    | Joined               // a client is attached
    | Listing(done: nat)   // announcing, so many tables published
    | Open                 // announced, consuming
    | Leaving              // stopping, the cooks unwinding
    | Said                 // the goodbye is out
    | Gone                 // detached for good

  predicate Handles(a: K.Action) {
    || a.Receive? || a.SpawnCook? || a.AcceptRaise?
    || a.ResetBegin? || a.ResetCommit? || a.ResetNext? || a.ResetDone? || a.ResetRaise?
  }

  /** The phase after the main coroutine's own action, in a restaurant of `n` tables. */
  function AdvanceBy(p: Phase, a: K.Action, n: nat): Option<Phase> {
    if ByCook(a) then (if p.Said? || p.Gone? then None else Some(p))
    else match p
      case Joined => if a.AnnounceStart? then Some(Listing(0)) else None
      case Listing(k) =>
        if a.AnnounceNext? && k < n then Some(Listing(k + 1))
        else if a.AnnounceDone? && k == n then Some(Open)
        else None
      case Open => if Handles(a) then Some(Open) else if a.Stop? then Some(Leaving) else None
      case _ => None
  }

  function Advance(p: Phase, e: Event, n: nat): Option<Phase> {
    match e
    case Attach => if p.Between? then Some(Joined) else None
    case Detach =>
      if p.Said? then Some(Gone)
      else if p.Joined? || p.Listing? || p.Open? then Some(Between)
      else None
    case Act(m) => AdvanceBy(p, m.action, n)
    case Answer(_, messages) =>
      if p.Open? && forall m :: m in messages ==> m.RejectionMessage? then Some(Open) else None
    case Goodbye(_) => if p.Leaving? then Some(Said) else None
  }

  /** The phase events lead to; None if they break the protocol. */
  function Track(p: Phase, events: seq<Event>, n: nat): Option<Phase>
    decreases |events|
  {
    if events == [] then Some(p)
    else
      match Advance(p, events[0], n)
      case None => None
      case Some(q) => Track(q, events[1..], n)
  }

  lemma {:induction false} TrackThen(p: Phase, s: seq<Event>, t: seq<Event>, n: nat)
    ensures Track(p, s + t, n) == if Track(p, s, n).None? then None else Track(Track(p, s, n).value, t, n)
    decreases |s|
  {
    hide Advance;
    if s == [] {
      assert s + t == t;
    } else {
      assert (s + t)[1..] == s[1..] + t;
      if Advance(p, s[0], n).Some? {
        TrackThen(Advance(p, s[0], n).value, s[1..], t, n);
      }
    }
  }

  // --- what keeping to the protocol means -----------------------------------------------------

  predicate Within(events: seq<Event>) {
    forall e :: e in events ==> !e.Attach? && !e.Detach?
  }

  predicate IsStop(e: Event) {
    e.Act? && e.moment.action.Stop?
  }

  /** What an event hands over to the client. */
  function Sayings(settings: Settings, w: World, e: Event): seq<Message>
    requires Possible(settings, w, e)
  {
    var after := After(settings, w, e).handed;
    if |w.handed| <= |after| then after[|w.handed|..] else []
  }

  lemma TrackPrefix(p: Phase, events: seq<Event>, n: nat, i: nat)
    requires Track(p, events, n).Some? && i < |events|
    ensures Track(p, events[..i], n).Some?
    ensures Advance(Track(p, events[..i], n).value, events[i], n).Some?
    ensures Track(p, events[..i + 1], n) == Advance(Track(p, events[..i], n).value, events[i], n)
  {
    hide Advance;
    assert events == events[..i] + events[i..];
    TrackThen(p, events[..i], events[i..], n);
    assert events[..i + 1] == events[..i] + [events[i]];
    TrackThen(p, events[..i], [events[i]], n);
    assert [events[i]][1..] == [];
  }

  /** The world after the first `i` events. */
  function WorldAt(settings: Settings, w: World, events: seq<Event>, i: nat): World
    requires i <= |events|
    decreases i
  {
    if i == 0 || !Possible(settings, w, events[0]) then w
    else WorldAt(settings, After(settings, w, events[0]), events[1..], i - 1)
  }

  lemma {:induction false} WorldAtNext(settings: Settings, w: World, events: seq<Event>, w': World, i: nat)
    requires Follows(settings, w, events, w') && i < |events|
    ensures Possible(settings, WorldAt(settings, w, events, i), events[i])
    ensures WorldAt(settings, w, events, i + 1) == After(settings, WorldAt(settings, w, events, i), events[i])
    decreases i
  {
    hide After, Possible;
    if i == 0 {
    } else {
      WorldAtNext(settings, After(settings, w, events[0]), events[1..], w', i - 1);
    }
  }

  /** At some event from `from` on, before `i`, an announce tries to publish table `t`. */
  ghost predicate Tried(settings: Settings, w: World, events: seq<Event>, from: nat, i: nat, t: TableId)
    requires i <= |events|
  {
    exists j :: from <= j < i && TriesTable(WorldAt(settings, w, events, j), events[j], t)
  }

  predicate TriesTable(w: World, e: Event, t: TableId) {
    && e.Act? && e.moment.action.AnnounceNext?
    && w.kitchen.main.Announcing? && w.kitchen.main.todo != [] && w.kitchen.main.todo[0].tableId == t
  }

  /** Up to event `i` an announce has been running, in this session, since event `from`: every
      table is still to be tried or has been. */
  ghost predicate Announcing(settings: Settings, w: World, events: seq<Event>, from: nat, i: nat)
    requires i <= |events|
  {
    var k := WorldAt(settings, w, events, i).kitchen;
    && from < i && events[from].Act? && events[from].moment.action.AnnounceStart? && Within(events[from..i])
    && k.main.Announcing?
    && forall t :: t in k.store.tables ==> InTodo(k.main.todo, t) || Tried(settings, w, events, from, i, t)
  }

  ghost predicate InTodo(todo: seq<TableState>, t: TableId) {
    exists m :: m in todo && m.tableId == t
  }

  lemma CookLeavesAnnounce(settings: Settings, k: K.Kitchen, a: K.Action)
    requires K.Enabled(settings, k, a) && ByCook(a)
    ensures K.Next(settings, k, a).main == k.main
    ensures K.Next(settings, k, a).store.tables.Keys == k.store.tables.Keys
  {
  }

  lemma AnnounceBegins(settings: Settings, k: K.Kitchen)
    requires K.Enabled(settings, k, K.AnnounceStart)
    ensures var k' := K.Next(settings, k, K.AnnounceStart);
            k'.main.Announcing? && forall t :: t in k'.store.tables ==> InTodo(k'.main.todo, t)
  {
    SnapshotOrder(k.store, k.now);
    var ids, all := M.SortedIds(k.store.tables.Keys), M.AllSnapshots(k.store, k.now);
    forall t | t in k.store.tables ensures InTodo(all, t) {
      assert t in ids;
      var i :| 0 <= i < |ids| && ids[i] == t;
      assert all[i] in all && all[i].tableId == t;
    }
  }

  lemma {:induction false} StillTried(settings: Settings, w: World, events: seq<Event>, from: nat, i: nat, t: TableId)
    requires i < |events| && Tried(settings, w, events, from, i, t)
    ensures Tried(settings, w, events, from, i + 1, t)
  {
    var j :| from <= j < i && TriesTable(WorldAt(settings, w, events, j), events[j], t);
  }

  /** The tables an announce still has to try, after one more action. */
  lemma AnnounceShrinks(settings: Settings, k: K.Kitchen, a: K.Action)
    requires K.Enabled(settings, k, a) && k.main.Announcing? && (ByCook(a) || a.AnnounceNext?)
    ensures var k' := K.Next(settings, k, a);
            && k'.main.Announcing?
            && k'.store.tables.Keys == k.store.tables.Keys
            && (a.AnnounceNext? ==> k.main.todo != [])
            && forall t :: InTodo(k.main.todo, t) ==>
                 InTodo(k'.main.todo, t) || (a.AnnounceNext? && k.main.todo[0].tableId == t)
  {
    if ByCook(a) {
      CookLeavesAnnounce(settings, k, a);
    } else {
      forall t | InTodo(k.main.todo, t) && k.main.todo[0].tableId != t ensures InTodo(k.main.todo[1..], t) {
        var m :| m in k.main.todo && m.tableId == t;
        assert m in k.main.todo[1..];
      }
    }
  }

  /** One more event of an announce. */
  lemma AnnounceGoesOn(settings: Settings, w: World, events: seq<Event>, w': World, from: nat, i: nat)
    requires Follows(settings, w, events, w') && i < |events| && Announcing(settings, w, events, from, i)
    requires events[i].Act? && (ByCook(events[i].moment.action) || events[i].moment.action.AnnounceNext?)
    ensures Announcing(settings, w, events, from, i + 1)
  {
    hide WorldAt, Follows, InTodo, Tried, K.Enabled, K.Next;
    WorldAtNext(settings, w, events, w', i);
    var k := WorldAt(settings, w, events, i).kitchen;
    AnnounceShrinks(settings, k, events[i].moment.action);
    assert events[from..i + 1] == events[from..i] + [events[i]];
    forall t | t in k.store.tables && !InTodo(WorldAt(settings, w, events, i + 1).kitchen.main.todo, t)
      ensures Tried(settings, w, events, from, i + 1, t)
    {
      if Tried(settings, w, events, from, i, t) {
        StillTried(settings, w, events, from, i, t);
      } else {
        JustTried(settings, w, events, from, i, t);
      }
    }
  }

  lemma JustTried(settings: Settings, w: World, events: seq<Event>, from: nat, i: nat, t: TableId)
    requires from <= i < |events| && TriesTable(WorldAt(settings, w, events, i), events[i], t)
    ensures Tried(settings, w, events, from, i + 1, t)
  {
  }

  /** While the session lists its tables, an announce has been running in it. */
  lemma {:induction false} ListingAnnounces(settings: Settings, w: World, events: seq<Event>, w': World, n: nat, i: nat)
    requires Follows(settings, w, events, w') && Track(Between, events, n).Some? && i <= |events|
    requires Track(Between, events[..i], n).Some? && Track(Between, events[..i], n).value.Listing?
    ensures exists from :: 0 <= from < i && Announcing(settings, w, events, from, i)
    decreases i
  {
    hide Follows, WorldAt;
    TrackPrefix(Between, events, n, i - 1);
    var before := Track(Between, events[..i - 1], n).value;
    if before.Joined? {
      BeginsListing(settings, w, events, w', i - 1);
    } else {
      ListingAnnounces(settings, w, events, w', n, i - 1);
      var from :| 0 <= from < i - 1 && Announcing(settings, w, events, from, i - 1);
      AnnounceGoesOn(settings, w, events, w', from, i - 1);
    }
  }

  lemma BeginsListing(settings: Settings, w: World, events: seq<Event>, w': World, i: nat)
    requires Follows(settings, w, events, w') && i < |events|
    requires events[i].Act? && events[i].moment.action.AnnounceStart?
    ensures Announcing(settings, w, events, i, i + 1)
  {
    hide WorldAt, Follows, InTodo, Tried, M.AllSnapshots, K.Enabled, K.Next;
    WorldAtNext(settings, w, events, w', i);
    AnnounceBegins(settings, WorldAt(settings, w, events, i).kitchen);
    assert events[i..i + 1] == [events[i]];
  }

  /** The client is told so at event `i`. */
  ghost predicate SaysAt(settings: Settings, w: World, events: seq<Event>, i: nat, m: Message) {
    && i < |events| && Possible(settings, WorldAt(settings, w, events, i), events[i])
    && m in Sayings(settings, WorldAt(settings, w, events, i), events[i])
  }

  /** Only the end of an announce says ONLINE, and only the goodbye says OFFLINE. */
  lemma StatusSayings(settings: Settings, w: World, p: Phase, e: Event, n: nat)
    requires Possible(settings, w, e) && Advance(p, e, n).Some?
    ensures StatusMessage(true) in Sayings(settings, w, e) ==> e.Act? && e.moment.action.AnnounceDone?
    ensures StatusMessage(false) in Sayings(settings, w, e) ==> e.Goodbye?
    ensures w.attached && e.Act? && e.moment.action.AnnounceDone? && e.moment.delivery == Taken ==>
              Sayings(settings, w, e) == [StatusMessage(true)]
    ensures w.attached && e.Goodbye? && e.delivery == Taken ==> Sayings(settings, w, e) == [StatusMessage(false)]
  {
    hide K.Enabled, K.Next, K.Sent, K.TryAccept;
    if e.Act? {
      AnnounceDoneSends(settings, w.kitchen, e.moment.action);
    }
  }

  lemma AnnounceDoneSends(settings: Settings, k: K.Kitchen, a: K.Action)
    requires K.Enabled(settings, k, a)
    ensures a.AnnounceDone? ==> K.Sent(settings, k, a) == None
  {
  }

  /** A client is attached from the joining of a session to its end. */
  lemma {:induction false} AttachedExactly(settings: Settings, w: World, events: seq<Event>, w': World, n: nat, i: nat)
    requires Follows(settings, w, events, w') && Track(Between, events, n).Some? && !w.attached && i <= |events|
    ensures Track(Between, events[..i], n).Some?
    ensures var p := Track(Between, events[..i], n).value;
            WorldAt(settings, w, events, i).attached <==> !p.Between? && !p.Gone?
    decreases i
  {
    hide Follows, WorldAt, Possible;
    if i == 0 {
      WorldAtStart(settings, w, events);
    } else {
      AttachedExactly(settings, w, events, w', n, i - 1);
      TrackPrefix(Between, events, n, i - 1);
      WorldAtNext(settings, w, events, w', i - 1);
      AttachedStep(settings, WorldAt(settings, w, events, i - 1), events[i - 1],
                   Track(Between, events[..i - 1], n).value, n);
    }
  }

  lemma WorldAtStart(settings: Settings, w: World, events: seq<Event>)
    ensures WorldAt(settings, w, events, 0) == w
  {
  }

  lemma AttachedStep(settings: Settings, w: World, e: Event, p: Phase, n: nat)
    requires Possible(settings, w, e) && Advance(p, e, n).Some?
    requires w.attached <==> !p.Between? && !p.Gone?
    ensures var q := Advance(p, e, n).value; After(settings, w, e).attached <==> !q.Between? && !q.Gone?
  {
    hide K.Enabled, K.Next, Outgoing;
  }

  /** In every run the client is told OFFLINE by nothing but the goodbye; and the end of every
      announce, if its publish is taken, tells it ONLINE. */
  lemma StatusSaidExactly(settings: Settings, w: World, events: seq<Event>, w': World, n: nat, i: nat)
    requires Follows(settings, w, events, w') && Track(Between, events, n).Some? && !w.attached && i < |events|
    ensures SaysAt(settings, w, events, i, StatusMessage(false)) <==>
            events[i].Goodbye? && events[i].delivery == Taken
    ensures SaysAt(settings, w, events, i, StatusMessage(true)) <==>
            events[i].Act? && events[i].moment.action.AnnounceDone? && events[i].moment.delivery == Taken
  {
    hide Follows, WorldAt, Sayings, Possible;
    TrackPrefix(Between, events, n, i);
    AttachedExactly(settings, w, events, w', n, i);
    WorldAtNext(settings, w, events, w', i);
    var v := WorldAt(settings, w, events, i);
    StatusSayings(settings, v, Track(Between, events[..i], n).value, events[i], n);
    NothingUntaken(settings, v, events[i]);
  }

  lemma NothingUntaken(settings: Settings, w: World, e: Event)
    requires Possible(settings, w, e)
    ensures e.Act? && e.moment.delivery != Taken ==> Sayings(settings, w, e) == []
    ensures e.Goodbye? && e.delivery != Taken ==> Sayings(settings, w, e) == []
  {
    hide K.Enabled, K.Next, Outgoing;
  }

  /** Whenever the client is told ONLINE, each table has been tried before, in that session. */
  lemma OnlineAfterEveryTable(settings: Settings, w: World, events: seq<Event>, w': World, n: nat, i: nat)
    requires Follows(settings, w, events, w') && Track(Between, events, n).Some?
    requires SaysAt(settings, w, events, i, StatusMessage(true))
    ensures exists from ::
              && 0 <= from < i && Within(events[from..i])
              && forall t :: t in WorldAt(settings, w, events, i).kitchen.store.tables ==>
                   Tried(settings, w, events, from, i, t)
  {
    hide Follows, WorldAt, Sayings;
    TrackPrefix(Between, events, n, i);
    StatusSayings(settings, WorldAt(settings, w, events, i), Track(Between, events[..i], n).value, events[i], n);
    ListingAnnounces(settings, w, events, w', n, i);
    var from :| 0 <= from < i && Announcing(settings, w, events, from, i);
    WorldAtNext(settings, w, events, w', i);
    var k := WorldAt(settings, w, events, i).kitchen;
    assert k.main.todo == [];
    assert forall t :: t in k.store.tables ==> !InTodo(k.main.todo, t);
  }

  lemma {:induction false} LeavingForGood(p: Phase, events: seq<Event>, n: nat)
    requires p.Leaving? || p.Said? || p.Gone?
    requires Track(p, events, n).Some?
    ensures forall e :: e in events ==> !IsStop(e) && !e.Attach?
    ensures !p.Leaving? ==> forall e :: e in events ==> e.Detach?
    decreases |events|
  {
    if events == [] {
    } else {
      LeavingForGood(Advance(p, events[0], n).value, events[1..], n);
    }
  }

  /** Shutdown runs at most once, and no session follows it. */
  lemma StopsOnce(events: seq<Event>, n: nat, i: nat, j: nat)
    requires Track(Between, events, n).Some? && i < j < |events| && IsStop(events[i])
    ensures !IsStop(events[j]) && !events[j].Attach?
  {
    TrackPrefix(Between, events, n, i);
    assert events == events[..i + 1] + events[i + 1..];
    TrackThen(Between, events[..i + 1], events[i + 1..], n);
    LeavingForGood(Leaving, events[i + 1..], n);
    assert events[j] in events[i + 1..];
  }

  /** After the goodbye there is nothing but the detaching. */
  lemma SilentAfterGoodbye(events: seq<Event>, n: nat, i: nat, j: nat)
    requires Track(Between, events, n).Some? && i < j < |events| && events[i].Goodbye?
    ensures events[j].Detach?
  {
    TrackPrefix(Between, events, n, i);
    assert events == events[..i + 1] + events[i + 1..];
    TrackThen(Between, events[..i + 1], events[i + 1..], n);
    LeavingForGood(Said, events[i + 1..], n);
    assert events[j] in events[i + 1..];
  }

  /** Nothing is handed to any client after the goodbye. */
  lemma LastWord(settings: Settings, w: World, events: seq<Event>, w': World, n: nat, i: nat)
    requires Follows(settings, w, events, w') && Track(Between, events, n).Some?
    requires i < |events| && events[i].Goodbye?
    ensures exists mid :: Follows(settings, w, events[..i + 1], mid) && w'.handed == mid.handed
  {
    assert events == events[..i + 1] + events[i + 1..];
    var mid := FollowsParts(settings, w, events[..i + 1], events[i + 1..], w');
    forall e | e in events[i + 1..] ensures e.Detach? {
      var j :| 0 <= j < |events[i + 1..]| && events[i + 1..][j] == e;
      SilentAfterGoodbye(events, n, i, i + 1 + j);
    }
    DetachingIsSilent(settings, mid, events[i + 1..], w');
  }

  lemma {:induction false} FollowsParts(settings: Settings, a: World, s: seq<Event>, t: seq<Event>, c: World)
      returns (b: World)
    requires Follows(settings, a, s + t, c)
    ensures Follows(settings, a, s, b) && Follows(settings, b, t, c)
    decreases |s|
  {
    hide After, Possible;
    if s == [] {
      assert s + t == t;
      b := a;
    } else {
      assert (s + t)[1..] == s[1..] + t;
      b := FollowsParts(settings, After(settings, a, s[0]), s[1..], t, c);
    }
  }

  lemma {:induction false} DetachingIsSilent(settings: Settings, w: World, events: seq<Event>, w': World)
    requires Follows(settings, w, events, w') && forall e :: e in events ==> e.Detach?
    ensures w'.handed == w.handed
    decreases |events|
  {
    if events == [] {
    } else {
      assert events[0] in events;
      DetachingIsSilent(settings, After(settings, w, events[0]), events[1..], w');
    }
  }
}
