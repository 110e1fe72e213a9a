/** The transport: sessions, one after the other, each of which connects, announces and consumes.

    The environment of a run is a script: for each session, how its connection fares, what
    arrives, how each await ends, and when the stop signal comes. What a run did is accounted
    for script by script and letter by letter. */
module Transport {
  import opened Models
  import opened HeapStore
  import opened HeapKitchen
  import opened Session
  import Topics
  import W = WireFormat
  import K = KitchenModel
  import M = StoreModel

  // --- the coroutines keep to it --------------------------------------------------------------

  /** What the main coroutine's own actions lead to. */
  function TrackOwn(p: Phase, actions: seq<K.Action>, n: nat): Option<Phase>
    decreases |actions|
  {
    if actions == [] then Some(p)
    else
      match AdvanceBy(p, actions[0], n)
      case None => None
      case Some(q) => TrackOwn(q, actions[1..], n)
  }

  predicate Busy(p: Phase) {
    !p.Said? && !p.Gone?
  }

  /** The cooks' doings never matter to the protocol. */
  lemma {:induction false} OnlyOwnMatters(p: Phase, trace: seq<Moment>, n: nat)
    requires Busy(p)
    ensures Track(p, Acts(trace), n) == TrackOwn(p, Own(trace), n)
    decreases |trace|
  {
    if trace == [] {
    } else {
      assert Acts(trace)[1..] == Acts(trace[1..]);
      var q := AdvanceBy(p, trace[0].action, n);
      if q.Some? {
        OnlyOwnMatters(q.value, trace[1..], n);
      }
      if !ByCook(trace[0].action) {
        assert Own(trace)[1..] == Own(trace[1..]);
      }
    }
  }

  lemma {:induction false} TrackOwnThen(p: Phase, s: seq<K.Action>, t: seq<K.Action>, n: nat)
    ensures TrackOwn(p, s + t, n) == if TrackOwn(p, s, n).None? then None else TrackOwn(TrackOwn(p, s, n).value, t, n)
    decreases |s|
  {
    hide AdvanceBy;
    if s == [] {
      assert s + t == t;
    } else {
      assert (s + t)[1..] == s[1..] + t;
      if AdvanceBy(p, s[0], n).Some? {
        TrackOwnThen(AdvanceBy(p, s[0], n).value, s[1..], t, n);
      }
    }
  }

  lemma {:induction false} ListsAll(k: nat, m: nat, n: nat)
    requires k + m <= n
    ensures TrackOwn(Listing(k), Times(m, K.AnnounceNext), n) == Some(Listing(k + m))
    decreases m
  {
    if m == 0 {
    } else {
      assert Times(m, K.AnnounceNext)[1..] == Times(m - 1, K.AnnounceNext);
      ListsAll(k + 1, m - 1, n);
    }
  }

  /** A complete announce opens the session; an announce cut short by an exception leaves it
      where it can still be closed. */
  lemma AnnounceOpens(own: seq<K.Action>, n: nat)
    requires own <= Announcement(n)
    ensures TrackOwn(Joined, own, n).Some?
    ensures var p := TrackOwn(Joined, own, n).value; p.Joined? || p.Listing? || p.Open?
    ensures own == Announcement(n) ==> TrackOwn(Joined, own, n) == Some(Open)
  {
    hide Announcement;
    AnnouncementOpens(n);
    var rest := Announcement(n)[|own|..];
    assert own + rest == Announcement(n);
    TrackOwnThen(Joined, own, rest, n);
    assert forall a :: a in own ==> a in Announcement(n);
    TrackOwnStays(Joined, own, n);
  }

  lemma AnnouncementOpens(n: nat)
    ensures TrackOwn(Joined, Announcement(n), n) == Some(Open)
    ensures forall a :: a in Announcement(n) ==> !a.Stop?
  {
    var all := Announcement(n);
    assert all[1..] == Times(n, K.AnnounceNext) + [K.AnnounceDone];
    ListsAll(0, n, n);
    TrackOwnThen(Listing(0), Times(n, K.AnnounceNext), [K.AnnounceDone], n);
    assert [K.AnnounceDone][1..] == [];
  }

  lemma {:induction false} TrackOwnStays(p: Phase, own: seq<K.Action>, n: nat)
    requires TrackOwn(p, own, n).Some? && (p.Joined? || p.Listing? || p.Open?)
    requires forall a :: a in own ==> !a.Stop?
    ensures var q := TrackOwn(p, own, n).value; q.Joined? || q.Listing? || q.Open?
    decreases |own|
  {
    if own == [] {
    } else {
      assert own[0] in own;
      TrackOwnStays(AdvanceBy(p, own[0], n).value, own[1..], n);
    }
  }

  lemma {:induction false} HandlingStaysOpen(own: seq<K.Action>, n: nat)
    requires forall a :: a in own ==> Handles(a)
    ensures TrackOwn(Open, own, n) == Some(Open)
    decreases |own|
  {
    if own == [] {
    } else {
      assert own[0] in own;
      HandlingStaysOpen(own[1..], n);
    }
  }

  // --- who raised -----------------------------------------------------------------------------

  /** Since the order that came last, nothing but the cooks has acted; `failed` says whether its
      publish, or its refusal's, met an error that is not the broker's. */
  ghost predicate ReceivedAs(events: seq<Event>, i: nat, failed: bool) {
    exists j :: 0 <= j < i < |events| && events[j].Act? && events[j].moment.action.Receive?
      && (events[j].moment.delivery == OtherError <==> failed)
      && forall k :: j < k < i ==> events[k].Act? && ByCook(events[k].moment.action)
  }

  /** An order is left without a cook only after its own publish met such an error, and is given
      one only if it did not. */
  ghost predicate CooksFollow(events: seq<Event>) {
    forall i :: 0 <= i < |events| && events[i].Act? ==>
      && (events[i].moment.action.AcceptRaise? ==> ReceivedAs(events, i, true))
      && (events[i].moment.action.SpawnCook? ==> ReceivedAs(events, i, false))
  }

  lemma {:induction false} ReceivedIn(s: seq<Event>, t: seq<Event>, i: nat, failed: bool)
    requires ReceivedAs(t, i, failed)
    ensures ReceivedAs(s + t, |s| + i, failed)
  {
    var j :| 0 <= j < i < |t| && t[j].Act? && t[j].moment.action.Receive?
             && (t[j].moment.delivery == OtherError <==> failed)
             && forall k :: j < k < i ==> t[k].Act? && ByCook(t[k].moment.action);
    var u := s + t;
    assert u[|s| + j] == t[j];
    forall k | |s| + j < k < |s| + i ensures u[k].Act? && ByCook(u[k].moment.action) {
      assert u[k] == t[k - |s|];
    }
  }

  lemma {:induction false} ReceivedBefore(s: seq<Event>, t: seq<Event>, i: nat, failed: bool)
    requires ReceivedAs(s, i, failed)
    ensures ReceivedAs(s + t, i, failed)
  {
    var j :| 0 <= j < i < |s| && s[j].Act? && s[j].moment.action.Receive?
             && (s[j].moment.delivery == OtherError <==> failed)
             && forall k :: j < k < i ==> s[k].Act? && ByCook(s[k].moment.action);
    var u := s + t;
    assert u[j] == s[j];
    forall k | j < k < i ensures u[k].Act? && ByCook(u[k].moment.action) {
      assert u[k] == s[k];
    }
  }

  lemma {:induction false} CooksFollowThen(s: seq<Event>, t: seq<Event>)
    requires CooksFollow(s) && CooksFollow(t)
    ensures CooksFollow(s + t)
  {
    hide ReceivedAs;
    var u := s + t;
    forall i | 0 <= i < |u| && u[i].Act?
      ensures u[i].moment.action.AcceptRaise? ==> ReceivedAs(u, i, true)
      ensures u[i].moment.action.SpawnCook? ==> ReceivedAs(u, i, false)
    {
      if i < |s| {
        assert u[i] == s[i];
        if s[i].moment.action.AcceptRaise? {
          ReceivedBefore(s, t, i, true);
        } else if s[i].moment.action.SpawnCook? {
          ReceivedBefore(s, t, i, false);
        }
      } else {
        assert u[i] == t[i - |s|];
        if u[i].moment.action.AcceptRaise? {
          ReceivedIn(s, t, i - |s|, true);
        } else if u[i].moment.action.SpawnCook? {
          ReceivedIn(s, t, i - |s|, false);
        }
      }
    }
  }

  lemma {:induction false} OwnHolds(trace: seq<Moment>, i: nat)
    requires i < |trace| && !ByCook(trace[i].action)
    ensures trace[i].action in Own(trace)
  {
    if i == 0 {
    } else {
      assert trace[1..][i - 1] == trace[i];
      OwnHolds(trace[1..], i - 1);
    }
  }

  lemma {:induction false} OwnOnce(trace: seq<Moment>, i: nat, k: nat)
    requires |Own(trace)| <= 1 && i < |trace| && !ByCook(trace[i].action) && k < |trace| && k != i
    ensures ByCook(trace[k].action)
  {
    if ByCook(trace[0].action) {
      if i > 0 && k > 0 {
        assert trace[1..][i - 1] == trace[i] && trace[1..][k - 1] == trace[k];
        OwnOnce(trace[1..], i - 1, k - 1);
      }
    } else {
      if i > 0 {
        assert trace[1..][i - 1] == trace[i];
        OwnHolds(trace[1..], i - 1);
      } else if !ByCook(trace[k].action) {
        assert trace[1..][k - 1] == trace[k];
        OwnHolds(trace[1..], k - 1);
      }
    }
  }

  lemma {:induction false} OrderFollowsAt(
      settings: Settings, w: World, trace: seq<Moment>, t: TableId, cmd: OrderPlaced, delay: int, delivery: Delivery,
      i: nat)
    requires w.attached && trace != [] && trace[0].action.Receive? && trace[0].delivery == delivery
    requires Own(trace) <= OrderRun(w, settings, t, cmd, delay, delivery)
    requires i < |trace| && (trace[i].action.AcceptRaise? || trace[i].action.SpawnCook?)
    ensures ReceivedAs(Acts(trace), i, trace[i].action.AcceptRaise?)
  {
    hide K.TryAccept;
    var events := Acts(trace);
    OwnHolds(trace, i);
    forall k | 0 < k < i ensures events[k].Act? && ByCook(events[k].moment.action) {
      assert trace[1..][i - 1] == trace[i] && trace[1..][k - 1] == trace[k];
      OwnOnce(trace[1..], i - 1, k - 1);
    }
    assert events[0] == Act(trace[0]);
  }

  /** An order's run spawns or raises as its delivery says. */
  lemma {:induction false} OrderFollows(
      settings: Settings, w: World, trace: seq<Moment>, t: TableId, cmd: OrderPlaced, delay: int, delivery: Delivery)
    requires w.attached && trace != [] && trace[0].action.Receive? && trace[0].delivery == delivery
    requires Own(trace) <= OrderRun(w, settings, t, cmd, delay, delivery)
    ensures CooksFollow(Acts(trace))
  {
    hide OrderRun, ReceivedAs;
    forall i | 0 <= i < |trace| && (trace[i].action.AcceptRaise? || trace[i].action.SpawnCook?)
      ensures ReceivedAs(Acts(trace), i, trace[i].action.AcceptRaise?)
    {
      OrderFollowsAt(settings, w, trace, t, cmd, delay, delivery, i);
    }
  }

  /** Nothing is spawned and nothing raises. */
  lemma {:induction false} NoneFollow(trace: seq<Moment>)
    requires forall a :: a in Own(trace) ==> !a.AcceptRaise? && !a.SpawnCook?
    ensures CooksFollow(Acts(trace))
  {
    forall i | 0 <= i < |trace| ensures !trace[i].action.AcceptRaise? && !trace[i].action.SpawnCook? {
      if !ByCook(trace[i].action) {
        OwnHolds(trace, i);
      }
    }
  }

  lemma ResetFollows(n: nat, raised: bool)
    ensures forall a :: a in ResetRun(n, raised) ==> !a.AcceptRaise? && !a.SpawnCook?
  {
  }

  lemma {:induction false} HandledFollows(
      settings: Settings, w: World, python: Topics.Python, letter: Letter, inbound: Inbound, tables: nat, cut: bool,
      trace: seq<Moment>)
    requires w.attached
    requires Handled(settings, w, python, letter.topic, inbound, letter.delay, letter.pause.delivery, tables, cut,
                     Own(trace))
    requires IsOrder(python, letter.topic, inbound) ==>
               trace != [] && trace[0].action.Receive? && trace[0].delivery == letter.pause.delivery
    ensures CooksFollow(Acts(trace))
  {
    hide Topics.ParseTableId, CooksFollow, ResetRun, K.TryAccept;
    if IsOrder(python, letter.topic, inbound) {
      var t := Topics.ParseTableId(python, letter.topic).tableId;
      OrderFollows(settings, w, trace, t, inbound.cmd, letter.delay, letter.pause.delivery);
    } else {
      if letter.topic == Topics.KITCHEN_RESET && settings.enableReset {
        var n, raised :| 0 <= n <= tables
          && if cut then Own(trace) != [] && Own(trace) < ResetRun(n, raised) else Own(trace) == ResetRun(n, raised);
        ResetFollows(n, raised);
        assert forall a :: a in Own(trace) ==> a in ResetRun(n, raised);
      }
      NoneFollow(trace);
    }
  }

  // --- what became of every letter ------------------------------------------------------------

  /** What the kitchen goes by. */
  datatype Rules = Rules(
    settings: Settings, python: Topics.Python, validate: map<string, W.Json> -> Option<OrderPlaced>)

  /** The main coroutine's own actions among some events. */
  function Deeds(events: seq<Event>): seq<K.Action> {
    if events == [] then []
    else if events[0].Act? && !ByCook(events[0].moment.action) then [events[0].moment.action] + Deeds(events[1..])
    else Deeds(events[1..])
  }

  /** The rest, which are no actions of the kitchen. */
  function Remarks(events: seq<Event>): seq<Event> {
    if events == [] then []
    else if events[0].Act? then Remarks(events[1..])
    else [events[0]] + Remarks(events[1..])
  }

  lemma {:induction false} DeedsOfActs(trace: seq<Moment>)
    ensures Deeds(Acts(trace)) == Own(trace) && Remarks(Acts(trace)) == []
  {
    if trace == [] {
    } else {
      assert Acts(trace)[1..] == Acts(trace[1..]);
      DeedsOfActs(trace[1..]);
    }
  }

  lemma {:induction false} DeedsThen(s: seq<Event>, t: seq<Event>)
    ensures Deeds(s + t) == Deeds(s) + Deeds(t) && Remarks(s + t) == Remarks(s) + Remarks(t)
  {
    if s == [] {
      assert s + t == t;
    } else {
      assert (s + t)[1..] == s[1..] + t;
      DeedsThen(s[1..], t);
    }
  }

  /** The answer a letter is owed: one that is meant as an order, cannot be used, and names its
      author. */
  function Owed(rules: Rules, letter: Letter): seq<Event> {
    var inbound := ParseOrder(letter.payload, rules.validate);
    if letter.topic != Topics.KITCHEN_RESET && Topics.ParseTableId(rules.python, letter.topic).OrderFor?
       && inbound.Unusable? && AnswerTo(inbound) != []
    then [Answer(letter.pause.delivery, AnswerTo(inbound))] else []
  }

  /** One letter has been handled, from one world to the next: by the actions its handling takes
      and the answer it is owed, and with the outcome it should have. Only its own stop signal
      cuts it off. */
  ghost predicate LetterHandled(rules: Rules, letter: Letter, n: nat, w: World, part: seq<Event>, w': World, cut: bool)
  {
    var inbound := ParseOrder(letter.payload, rules.validate);
    var delivery := letter.pause.delivery;
    && Follows(rules.settings, w, part, w') && w'.attached == w.attached
    && Handled(rules.settings, w, rules.python, letter.topic, inbound, letter.delay, delivery, n, cut, Deeds(part))
    && Remarks(part) == Owed(rules, letter)
    && MessageSettled(rules.settings, w.kitchen, w'.kitchen, rules.python, letter.topic, inbound, letter.delay,
                      w.attached && delivery == OtherError, cut)
    && (cut ==> letter.pause.stop || exists i :: letter.pauses(i).stop)
  }

  /** The worlds between letters, and the events of each letter. */
  datatype Hearing = Hearing(worlds: seq<World>, parts: seq<seq<Event>>)

  function Flat(parts: seq<seq<Event>>): seq<Event> {
    if parts == [] then [] else Flat(parts[..|parts| - 1]) + parts[|parts| - 1]
  }

  /** Every letter of the inbox has been handled, one after the other and in order; or, when cut,
      every letter up to the one whose handling the stop signal cut off. */
  ghost predicate Heard(rules: Rules, inbox: seq<Letter>, n: nat, w: World, events: seq<Event>, w': World, h: Hearing,
                        cut: bool)
  {
    && |h.worlds| == |h.parts| + 1 && |h.parts| <= |inbox|
    && h.worlds[0] == w && h.worlds[|h.parts|] == w' && Flat(h.parts) == events
    && (if cut then |h.parts| > 0 else |h.parts| == |inbox|)
    && forall i :: 0 <= i < |h.parts| ==>
         LetterHandled(rules, inbox[i], n, h.worlds[i], h.parts[i], h.worlds[i + 1], cut && i == |h.parts| - 1)
  }

  lemma HeardNothing(rules: Rules, inbox: seq<Letter>, n: nat, w: World)
    ensures Heard(rules, inbox[..0], n, w, [], w, Hearing([w], []), false)
  {
  }

  lemma HeardNext(rules: Rules, inbox: seq<Letter>, i: nat, n: nat, w: World, events: seq<Event>, mid: World,
                  h: Hearing, part: seq<Event>, w': World, cut: bool)
    requires i < |inbox| && Heard(rules, inbox[..i], n, w, events, mid, h, false)
    requires LetterHandled(rules, inbox[i], n, mid, part, w', cut)
    ensures Heard(rules, inbox[..i + 1], n, w, events + part, w', Hearing(h.worlds + [w'], h.parts + [part]), cut)
  {
    hide LetterHandled;
    var h' := Hearing(h.worlds + [w'], h.parts + [part]);
    assert h'.parts[..i] == h.parts;
    forall j | 0 <= j < |h'.parts|
      ensures LetterHandled(rules, inbox[..i + 1][j], n, h'.worlds[j], h'.parts[j], h'.worlds[j + 1],
                            cut && j == |h'.parts| - 1)
    {
      if j < i {
        assert inbox[..i][j] == inbox[j];
      }
    }
  }

  lemma HeardEnough(rules: Rules, inbox: seq<Letter>, i: nat, n: nat, w: World, events: seq<Event>, w': World,
                    h: Hearing, cut: bool)
    requires i <= |inbox| && Heard(rules, inbox[..i], n, w, events, w', h, cut) && (cut || i == |inbox|)
    ensures Heard(rules, inbox, n, w, events, w', h, cut)
  {
    hide LetterHandled;
    assert forall j :: 0 <= j < |h.parts| ==> inbox[..i][j] == inbox[j];
  }

  /** So every order letter that was heard out, passed the checks and met no error but the
      broker's own has a cook in the world after it, and one that met another error has none. */
  lemma {:induction false} LetterGetsCook(
      rules: Rules, inbox: seq<Letter>, n: nat, w: World, events: seq<Event>, w': World, h: Hearing, cut: bool, i: nat,
      t: nat)
    requires Heard(rules, inbox, n, w, events, w', h, cut) && w.attached
    requires i < |h.parts| && (cut ==> i < |h.parts| - 1)
    requires inbox[i].topic != Topics.KITCHEN_RESET
    requires Topics.ParseTableId(rules.python, inbox[i].topic) == Topics.OrderFor(t)
    requires ParseOrder(inbox[i].payload, rules.validate).Usable?
    requires K.Admits(rules.settings, h.worlds[i].kitchen.store, ParseOrder(inbox[i].payload, rules.validate).cmd, t)
    ensures var k, k' := h.worlds[i].kitchen, h.worlds[i + 1].kitchen;
            var delay := inbox[i].delay;
            if inbox[i].pause.delivery == OtherError
            then k'.orphans == k.orphans + {k.nextOrder} && k'.tasks.Keys <= k.tasks.Keys
            else
              && k'.orphans == k.orphans && k.nextTask in k'.tasks
              && k'.tasks[k.nextTask] == K.CookTask(t, k.nextOrder, if delay > 0 then delay else 0, K.Spawned)
  {
    hide Handled, Follows, ParseOrder, Topics.ParseTableId, K.Admits, Owed, Deeds, Remarks;
    HeardAttached(rules, inbox, n, w, events, w', h, cut, i);
    assert LetterHandled(rules, inbox[i], n, h.worlds[i], h.parts[i], h.worlds[i + 1], cut && i == |h.parts| - 1);
  }

  lemma {:induction false} HeardAttached(rules: Rules, inbox: seq<Letter>, n: nat, w: World, events: seq<Event>,
                                         w': World, h: Hearing, cut: bool, i: nat)
    requires Heard(rules, inbox, n, w, events, w', h, cut) && i <= |h.parts|
    ensures h.worlds[i].attached == w.attached
  {
    hide Handled, Follows, ParseOrder, Owed, Deeds, Remarks, MessageSettled;
    if i == 0 {
    } else {
      HeardAttached(rules, inbox, n, w, events, w', h, cut, i - 1);
      assert LetterHandled(rules, inbox[i - 1], n, h.worlds[i - 1], h.parts[i - 1], h.worlds[i],
                           cut && i - 1 == |h.parts| - 1);
    }
  }

  // --- the transport --------------------------------------------------------------------------

  datatype Letter = Letter(topic: string, payload: Payload, delay: int, pause: Pause, pauses: nat -> Pause)

  /** How a session ends once the announce is through, if no handler is cut off by the stop
      signal: between messages, the link is lost, the stop signal has come, or both. */
  datatype Ending = LinkLost | StopSignal | Both

  /** `stopEarly`: the stop signal comes before the connection attempt has failed. */
  datatype Script = Script(
    connects: bool, client: int, subscribes: bool, settling: seq<Moment>, stopEarly: bool,
    pauses: nat -> Pause, last: Pause, inbox: seq<Letter>,
    ending: Ending, unwinding: seq<Moment>, goodbye: Delivery, backoff: seq<Moment>, stopInBackoff: bool)

  ghost predicate Fair(script: Script) {
    && ByCooks(script.settling) && ByCooks(script.last.moments) && ByCooks(script.unwinding) && ByCooks(script.backoff)
    && (forall i :: ByCooks(script.pauses(i).moments))
    && (forall i :: 0 <= i < |script.inbox| ==> FairLetter(script.inbox[i]))
  }

  ghost predicate FairLetter(letter: Letter) {
    ByCooks(letter.pause.moments) && forall i :: ByCooks(letter.pauses(i).moments)
  }

  // --- what became of every session -----------------------------------------------------------

  /** No publish of the announce meets an error that is not the broker's. */
  ghost predicate Calm(script: Script) {
    script.last.delivery != OtherError && forall i :: script.pauses(i).delivery != OtherError
  }

  /** The stop signal is among what the script has in store for the end of the consumer. */
  predicate StopsThere(script: Script, cut: bool) {
    cut || !script.ending.LinkLost?
  }

  /** How a session went: up to the end of its announce, at its letters, and from there on. */
  datatype Telling = Telling(
    before: seq<Event>, during: seq<Event>, after: seq<Event>, open: World, closed: World, hearing: Hearing, cut: bool)

  /** The session announced, heard its letters, and said goodbye exactly if it was told to stop. */
  ghost predicate SessionTold(rules: Rules, script: Script, n: nat, w: World, events: seq<Event>, w': World,
                              t: Telling)
  {
    && events == t.before + t.during + t.after
    && Follows(rules.settings, w, t.before, t.open) && Deeds(t.before) == Announcement(n)
    && Heard(rules, script.inbox, n, t.open, t.during, t.closed, t.hearing, t.cut)
    && Follows(rules.settings, t.closed, t.after, w')
    && (Goodbye(script.goodbye) in t.after <==> StopsThere(script, t.cut))
    && (forall e :: e in Remarks(t.before) ==> e.Attach?)
  }

  lemma TellMore(rules: Rules, script: Script, n: nat, a: World, first: seq<Event>, w: World, events: seq<Event>,
                 w': World, last: seq<Event>, b: World, t: Telling) returns (t': Telling)
    requires SessionTold(rules, script, n, w, events, w', t)
    requires Follows(rules.settings, a, first, w) && Deeds(first) == [] && forall e :: e in Remarks(first) ==> e.Attach?
    requires Follows(rules.settings, w', last, b) && Goodbye(script.goodbye) !in last
    ensures SessionTold(rules, script, n, a, first + events + last, b, t') && t'.cut == t.cut
  {
    hide Follows, Heard, Announcement, Deeds, Remarks;
    t' := t.(before := first + t.before, after := t.after + last);
    FollowsThen(rules.settings, a, first, w, t.before, t.open);
    FollowsThen(rules.settings, t.closed, t.after, w', last, b);
    DeedsThen(first, t.before);
    assert [] + Announcement(n) == Announcement(n);
    assert first + events + last == t'.before + t'.during + t'.after;
  }

  /** One script has been played, from one world to the next. Without a connection nothing but
      time and the cooks has moved; with one, the session began and ended; and if the kitchen
      could announce, it heard the letters. */
  ghost predicate ScriptPlayed(rules: Rules, script: Script, n: nat, w: World, part: seq<Event>, w': World, t: Telling)
  {
    && Follows(rules.settings, w, part, w')
    && if !script.connects then Deeds(part) == [] && Remarks(part) == []
       else
         && part != [] && part[0] == Attach && Detach in part
         && (script.subscribes && Calm(script) ==> SessionTold(rules, script, n, w, part, w', t))
  }

  /** The stop signal has come by the end of the script. */
  predicate StoppedBy(script: Script, t: Telling) {
    || script.stopInBackoff
    || (if script.connects && script.subscribes then StopsThere(script, t.cut) else script.stopEarly)
  }

  /** The worlds between sessions, the events of each, and how each went. */
  datatype Chronicle = Chronicle(worlds: seq<World>, parts: seq<seq<Event>>, tellings: seq<Telling>)

  /** The scripts have been played one after the other and in order, as many as there are parts. */
  ghost predicate Played(rules: Rules, scripts: seq<Script>, n: nat, w: World, events: seq<Event>, w': World,
                         c: Chronicle)
  {
    && |c.worlds| == |c.parts| + 1 && |c.tellings| == |c.parts| <= |scripts|
    && c.worlds[0] == w && c.worlds[|c.parts|] == w' && Flat(c.parts) == events
    && forall i :: 0 <= i < |c.parts| ==>
         ScriptPlayed(rules, scripts[i], n, c.worlds[i], c.parts[i], c.worlds[i + 1], c.tellings[i])
  }

  lemma PlayedNothing(rules: Rules, scripts: seq<Script>, n: nat, w: World)
    ensures Played(rules, scripts, n, w, [], w, Chronicle([w], [], []))
  {
  }

  lemma PlayedNext(rules: Rules, scripts: seq<Script>, n: nat, w: World, events: seq<Event>, mid: World, c: Chronicle,
                   part: seq<Event>, w': World, t: Telling)
    requires Played(rules, scripts, n, w, events, mid, c) && |c.parts| < |scripts|
    requires ScriptPlayed(rules, scripts[|c.parts|], n, mid, part, w', t)
    ensures Played(rules, scripts, n, w, events + part, w',
                   Chronicle(c.worlds + [w'], c.parts + [part], c.tellings + [t]))
  {
    hide ScriptPlayed;
    var c' := Chronicle(c.worlds + [w'], c.parts + [part], c.tellings + [t]);
    assert c'.parts[..|c.parts|] == c.parts;
  }

  /** Waiting after a session changes nothing about how it went. */
  lemma PlayedOn(rules: Rules, script: Script, n: nat, w: World, part: seq<Event>, w': World, t: Telling,
                 wait: seq<Event>, b: World) returns (t': Telling)
    requires ScriptPlayed(rules, script, n, w, part, w', t)
    requires Follows(rules.settings, w', wait, b) && Deeds(wait) == [] && Remarks(wait) == []
    requires Goodbye(script.goodbye) !in wait
    ensures ScriptPlayed(rules, script, n, w, part + wait, b, t') && t'.cut == t.cut
  {
    hide Follows, SessionTold, Calm, Deeds, Remarks;
    t' := t;
    FollowsThen(rules.settings, w, part, w', wait, b);
    DeedsThen(part, wait);
    if script.connects && script.subscribes && Calm(script) {
      StandStill(rules.settings, w);
      t' := TellMore(rules, script, n, w, [], w, part, w', wait, b, t);
      assert [] + part + wait == part + wait;
    }
  }

  lemma StandStill(settings: Settings, w: World)
    ensures Follows(settings, w, [], w) && Deeds([]) == [] && Remarks([]) == []
  {
  }

  /** How a session came to an end. */
  datatype Outcome = BrokerFailed | Closed | Crashed

  /** What the handling of a message does is all a consumer may do. */
  lemma OrderRunHandles(settings: Settings, w: World, t: TableId, cmd: OrderPlaced, delay: int, delivery: Delivery)
    ensures forall a :: a in OrderRun(w, settings, t, cmd, delay, delivery) ==> Handles(a)
  {
    hide K.TryAccept;
  }

  lemma ResetRunHandles(n: nat, raised: bool)
    ensures forall a :: a in ResetRun(n, raised) ==> Handles(a)
  {
  }

  lemma MessageHandled(p: Phase, trace: seq<Moment>, n: nat)
    requires p.Open? && forall a :: a in Own(trace) ==> Handles(a)
    ensures Track(p, Acts(trace), n) == Some(Open)
  {
    OnlyOwnMatters(p, trace, n);
    HandlingStaysOpen(Own(trace), n);
  }

  /** What handling a letter did, cut off or not, is all a consumer may do. */
  lemma OwnHandled(settings: Settings, w: World, python: Topics.Python, letter: Letter, inbound: Inbound, tables: nat,
                   cut: bool, own: seq<K.Action>)
    requires Handled(settings, w, python, letter.topic, inbound, letter.delay, letter.pause.delivery, tables, cut, own)
    ensures forall a :: a in own ==> Handles(a)
  {
    hide Topics.ParseTableId, OrderRun, ResetRun, Handles;
    if letter.topic == Topics.KITCHEN_RESET {
      if settings.enableReset {
        var n, raised :| 0 <= n <= tables
          && if cut then own != [] && own < ResetRun(n, raised) else own == ResetRun(n, raised);
        ResetRunHandles(n, raised);
        assert forall a :: a in own ==> a in ResetRun(n, raised);
      }
    } else {
      var parsed := Topics.ParseTableId(python, letter.topic);
      if parsed.OrderFor? && inbound.Usable? {
        OrderRunHandles(settings, w, parsed.tableId, inbound.cmd, letter.delay, letter.pause.delivery);
        ReceiveHandles(parsed.tableId, inbound.cmd, letter.delay);
      }
    }
  }

  lemma ReceiveHandles(t: TableId, cmd: OrderPlaced, delay: int)
    ensures Handles(K.Receive(t, cmd, delay))
  {
  }

  lemma NoEvents()
    ensures CooksFollow([])
  {
  }

  /** The answer comes before anything else. */
  lemma OwedFirst(rules: Rules, letter: Letter, w: World, first: World, events: seq<Event>, w': World, n: nat)
    requires var inbound := ParseOrder(letter.payload, rules.validate);
             var order := letter.topic != Topics.KITCHEN_RESET
                          && Topics.ParseTableId(rules.python, letter.topic).OrderFor?;
             first == if order && inbound.Unusable? then Took(w, letter.pause.delivery, AnswerTo(inbound)) else w
    requires Follows(rules.settings, first, events, w') && CooksFollow(events) && Remarks(events) == []
    ensures var all := Owed(rules, letter) + events;
            && Follows(rules.settings, w, all, w') && Track(Open, all, n) == Track(Open, events, n)
            && Deeds(all) == Deeds(events) && Remarks(all) == Owed(rules, letter) && CooksFollow(all)
  {
    hide Topics.ParseTableId, ParseOrder, Follows, Track, CooksFollow;
    var owed := Owed(rules, letter);
    DeedsThen(owed, events);
    if owed == [] {
      assert owed + events == events;
      NothingTaken(w, letter.pause.delivery);
    } else {
      AnswerFirst(rules.settings, w, letter.pause.delivery, owed[0].messages, events, w', n);
      assert owed == [owed[0]] && owed[1..] == [];
      NoEvents();
      OneRemark(owed[0]);
      CooksFollowThen(owed, events);
    }
  }

  lemma NothingTaken(w: World, delivery: Delivery)
    ensures Took(w, delivery, []) == w
  {
    assert w.handed + [] == w.handed;
  }

  lemma OneRemark(e: Event)
    requires !e.Act?
    ensures CooksFollow([e]) && Deeds([e]) == [] && Remarks([e]) == [e]
  {
    assert [e][1..] == [];
  }

  lemma AnswerFirst(settings: Settings, w: World, delivery: Delivery, messages: seq<Message>,
                    events: seq<Event>, w': World, n: nat)
    requires Follows(settings, Took(w, delivery, messages), events, w')
    requires forall m :: m in messages ==> m.RejectionMessage?
    ensures Follows(settings, w, [Answer(delivery, messages)] + events, w')
    ensures Track(Open, [Answer(delivery, messages)] + events, n) == Track(Open, events, n)
  {
    assert ([Answer(delivery, messages)] + events)[1..] == events;
  }

  function RulesOf(kitchen: Kitchen): Rules {
    Rules(kitchen.settings, kitchen.python, kitchen.validate)
  }

  class MqttTransport {
    const kitchen: Kitchen

    constructor (kitchen: Kitchen)
      ensures this.kitchen == kitchen
    {
      this.kitchen := kitchen;
    }

    /** Hand one message to the kitchen; the stop signal can cut its handling off. */
    method Deliver(letter: Letter) returns (cut: bool, ghost events: seq<Event>)
      requires kitchen.Valid() && kitchen.main.Idle? && FairLetter(letter) && kitchen.publisher.client.Some?
      modifies kitchen, kitchen.store, kitchen.store.Repr, kitchen.publisher`handed
      ensures kitchen.Valid() && fresh(kitchen.store.Repr - old(kitchen.store.Repr))
      ensures kitchen.store.tables == old(kitchen.store.tables)
      ensures K.Consuming(kitchen.main) && K.AtAwait(kitchen.main) && (!cut ==> kitchen.main.Idle?)
      ensures Follows(kitchen.settings, old(kitchen.Whole()), events, kitchen.Whole())
      ensures Track(Open, events, |kitchen.store.tables|) == Some(Open)
      ensures LetterHandled(RulesOf(kitchen), letter, |kitchen.store.tables|, old(kitchen.Whole()), events,
                            kitchen.Whole(), cut)
      ensures CooksFollow(events)
    {
      hide Performs, Follows, Track, Own, InMemoryStore.Valid, InMemoryStore.Model, Topics.ParseTableId, OrderRun,
           ResetRun, Handles, Handled, ParseOrder, MessageSettled, CooksFollow, Deeds, Remarks, Acts, AnswerTo;
      ghost var n := |kitchen.store.tables|;
      ghost var before := kitchen.Whole();
      ghost var inbound := ParseOrder(letter.payload, kitchen.validate);
      ghost var first, trace;
      first, cut, trace :=
        kitchen.HandleMessage(letter.topic, letter.payload, letter.delay, letter.pause, letter.pauses);
      FollowsActs(kitchen.settings, first, trace, kitchen.Whole());
      OwnHandled(kitchen.settings, before, kitchen.python, letter, inbound, n, cut, Own(trace));
      HandledFollows(kitchen.settings, before, kitchen.python, letter, inbound, n, cut, trace);
      MessageHandled(Open, trace, n);
      DeedsOfActs(trace);
      events := Owed(RulesOf(kitchen), letter) + Acts(trace);
      OwedFirst(RulesOf(kitchen), letter, before, first, Acts(trace), kitchen.Whole(), n);
    }

    /** Hand every message to the kitchen, one after the other, until the stop signal cuts the
        handling of one off. */
    method Consume(inbox: seq<Letter>) returns (cut: bool, ghost events: seq<Event>, ghost h: Hearing)
      requires kitchen.Valid() && kitchen.main.Idle? && kitchen.publisher.client.Some?
      requires forall i :: 0 <= i < |inbox| ==> FairLetter(inbox[i])
      modifies kitchen, kitchen.store, kitchen.store.Repr, kitchen.publisher`handed
      ensures kitchen.Valid() && fresh(kitchen.store.Repr - old(kitchen.store.Repr))
      ensures kitchen.store.tables == old(kitchen.store.tables)
      ensures K.Consuming(kitchen.main) && K.AtAwait(kitchen.main) && (!cut ==> kitchen.main.Idle?)
      ensures Follows(kitchen.settings, old(kitchen.Whole()), events, kitchen.Whole())
      ensures Track(Open, events, |kitchen.store.tables|) == Some(Open)
      ensures Heard(RulesOf(kitchen), inbox, |kitchen.store.tables|, old(kitchen.Whole()), events, kitchen.Whole(), h,
                    cut)
      ensures CooksFollow(events)
    {
      hide Follows, Track, InMemoryStore.Valid, InMemoryStore.Model, Kitchen.View, Kitchen.Whole, FairLetter,
           CooksFollow, LetterHandled, Heard;
      ghost var start, n := kitchen.Whole(), |kitchen.store.tables|;
      cut, events, h := false, [], Hearing([start], []);
      Nothing(kitchen.settings, start, Open, n);
      HeardNothing(RulesOf(kitchen), inbox, n, start);
      NoEvents();
      var i := 0;
      while i < |inbox| && !cut
        invariant 0 <= i <= |inbox|
        invariant kitchen.Valid() && fresh(kitchen.store.Repr - old(kitchen.store.Repr))
        invariant kitchen.store.tables == old(kitchen.store.tables)
        invariant K.Consuming(kitchen.main) && K.AtAwait(kitchen.main) && (!cut ==> kitchen.main.Idle?)
        invariant Follows(kitchen.settings, start, events, kitchen.Whole())
        invariant Track(Open, events, n) == Some(Open)
        invariant Heard(RulesOf(kitchen), inbox[..i], n, start, events, kitchen.Whole(), h, cut) && CooksFollow(events)
      {
        ghost var before, more := kitchen.Whole(), [];
        cut, more := Deliver(inbox[i]);
        Onward(kitchen.settings, start, events, before, more, kitchen.Whole(), Open, n);
        HeardNext(RulesOf(kitchen), inbox, i, n, start, events, before, h, more, kitchen.Whole(), cut);
        CooksFollowThen(events, more);
        h := Hearing(h.worlds + [kitchen.Whole()], h.parts + [more]);
        events := events + more;
        i := i + 1;
      }
      HeardEnough(RulesOf(kitchen), inbox, i, n, start, events, kitchen.Whole(), h, cut);
    }

    /** A connection has been made. */
    method Join(client: int) returns (ghost events: seq<Event>)
      requires kitchen.Valid() && kitchen.main.Offline? && kitchen.publisher.client == None
      modifies kitchen`main, kitchen.publisher`client
      ensures kitchen.Valid() && kitchen.main.Subscribing? && kitchen.publisher.client == Some(client)
      ensures Follows(kitchen.settings, old(kitchen.Whole()), events, kitchen.Whole())
      ensures Track(Between, events, |kitchen.store.tables|) == Some(Joined) && events == [Attach]
    {
      hide InMemoryStore.Valid, InMemoryStore.Model;
      kitchen.publisher.Attach(client);
      kitchen.main := K.Subscribing;
      events := [Attach];
      assert events[1..] == [];
    }

    /** The `finally` of every session. */
    method Leave(ghost p: Phase) returns (ghost events: seq<Event>)
      requires kitchen.Valid() && (p.Joined? || p.Listing? || p.Open? || p.Said?)
      modifies kitchen`main, kitchen.publisher`client
      ensures kitchen.Valid() && kitchen.publisher.client == None
      ensures kitchen.main == MainAfterDetach(old(kitchen.main))
      ensures Follows(kitchen.settings, old(kitchen.Whole()), events, kitchen.Whole())
      ensures Track(p, events, |kitchen.store.tables|) == Some(if p.Said? then Gone else Between) && events == [Detach]
    {
      hide InMemoryStore.Valid, InMemoryStore.Model;
      kitchen.publisher.Detach();
      kitchen.main := MainAfterDetach(kitchen.main);
      events := [Detach];
      assert events[1..] == [];
    }

    /** Give up control while in phase `p`. */
    method Wait(ghost p: Phase, moments: seq<Moment>) returns (ghost events: seq<Event>)
      requires kitchen.Valid() && ByCooks(moments) && Busy(p) && K.AtAwait(kitchen.main)
      modifies kitchen`now, kitchen`cookTasks, kitchen`ledger, kitchen.store.Repr, kitchen.publisher`handed
      ensures kitchen.Valid() && kitchen.store.Repr == old(kitchen.store.Repr)
      ensures Follows(kitchen.settings, old(kitchen.Whole()), events, kitchen.Whole())
      ensures Track(p, events, |kitchen.store.tables|) == Some(p)
      ensures Deeds(events) == [] && Remarks(events) == [] && CooksFollow(events)
      ensures forall e :: e in events ==> e.Act?
    {
      hide CooksFollow, Deeds, Remarks, Scheduled, GrewByTables;
      hide Follows, Track, Performs, InMemoryStore.Valid, InMemoryStore.Model, Own, Kitchen.View, Kitchen.Whole;
      ghost var before := kitchen.Whole();
      ghost var trace := kitchen.Await(moments);
      FollowsActs(kitchen.settings, before, trace, kitchen.Whole());
      OnlyOwnMatters(p, trace, |kitchen.store.tables|);
      OwnNothing(trace);
      DeedsOfActs(trace);
      NoneFollow(trace);
      events := Acts(trace);
    }

    method Announce(pauses: nat -> Pause, last: Pause) returns (raised: bool, ghost events: seq<Event>)
      requires kitchen.Valid() && kitchen.main.Subscribing?
      requires ByCooks(last.moments) && forall i :: ByCooks(pauses(i).moments)
      modifies kitchen`now, kitchen`cookTasks, kitchen`ledger, kitchen`main, kitchen.store.Repr
      modifies kitchen.publisher`handed
      ensures kitchen.Valid() && kitchen.store.Repr == old(kitchen.store.Repr)
      ensures Follows(kitchen.settings, old(kitchen.Whole()), events, kitchen.Whole())
      ensures Track(Joined, events, |kitchen.store.tables|).Some?
      ensures var p := Track(Joined, events, |kitchen.store.tables|).value;
              (p.Joined? || p.Listing? || p.Open?) && (!raised ==> p.Open? && kitchen.main.Idle?)
      ensures !raised ==> Deeds(events) == Announcement(|kitchen.store.tables|)
      ensures Remarks(events) == [] && CooksFollow(events)
      ensures raised ==> last.delivery == OtherError || exists i :: pauses(i).delivery == OtherError
    {
      hide CooksFollow, Deeds, Remarks, GrewByTables, SaidOnline, M.AllSnapshots;
      hide Follows, Track, TrackOwn, Performs, InMemoryStore.Valid, InMemoryStore.Model, Own, Kitchen.View,
           Kitchen.Whole, Announcement;
      ghost var before := kitchen.Whole();
      ghost var trace;
      raised, trace := kitchen.AnnounceOnline(pauses, last);
      FollowsActs(kitchen.settings, before, trace, kitchen.Whole());
      OnlyOwnMatters(Joined, trace, |kitchen.store.tables|);
      AnnounceOpens(Own(trace), |kitchen.store.tables|);
      DeedsOfActs(trace);
      AnnouncementFollows(|kitchen.store.tables|);
      assert forall a :: a in Own(trace) ==> a in Announcement(|kitchen.store.tables|);
      NoneFollow(trace);
      events := Acts(trace);
    }

    /** Shut down, wherever the stop signal has left the consumer. */
    method SayGoodbye(unwinding: seq<Moment>, delivery: Delivery) returns (ghost events: seq<Event>)
      requires kitchen.Valid() && K.Consuming(kitchen.main) && K.AtAwait(kitchen.main) && ByCooks(unwinding)
      modifies kitchen`now, kitchen`cookTasks, kitchen`ledger, kitchen`main, kitchen.store.Repr
      modifies kitchen.publisher`handed
      ensures kitchen.Valid() && kitchen.store.Repr == old(kitchen.store.Repr)
      ensures Follows(kitchen.settings, old(kitchen.Whole()), events, kitchen.Whole())
      ensures Track(Open, events, |kitchen.store.tables|) == Some(Said)
      ensures Goodbye(delivery) in events && CooksFollow(events)
    {
      hide CooksFollow;
      hide Follows, Track, TrackOwn, Performs, InMemoryStore.Valid, InMemoryStore.Model, Own, Kitchen.View,
           Kitchen.Whole;
      ghost var before, n := kitchen.Whole(), |kitchen.store.tables|;
      ghost var last, trace;
      last, trace := kitchen.Shutdown(unwinding, delivery);
      FollowsActs(kitchen.settings, before, trace, last);
      OnlyOwnMatters(Open, trace, n);
      StopLeaves(n);
      LastWords(kitchen.settings, last, delivery, kitchen.Whole(), n);
      Onward(kitchen.settings, before, Acts(trace), last, [Goodbye(delivery)], kitchen.Whole(), Open, n);
      events := Acts(trace) + [Goodbye(delivery)];
      NoneFollow(trace);
      OneRemark(Goodbye(delivery));
      CooksFollowThen(Acts(trace), [Goodbye(delivery)]);
    }

    /** Everything between attaching and detaching. */
    method Converse(script: Script) returns (outcome: Outcome, stop: bool, ghost events: seq<Event>, ghost t: Telling)
      requires kitchen.Valid() && kitchen.main.Subscribing? && kitchen.publisher.client.Some? && Fair(script)
      modifies kitchen, kitchen.store, kitchen.store.Repr, kitchen.publisher`handed
      ensures kitchen.Valid() && fresh(kitchen.store.Repr - old(kitchen.store.Repr))
      ensures kitchen.store.tables == old(kitchen.store.tables)
      ensures Follows(kitchen.settings, old(kitchen.Whole()), events, kitchen.Whole())
      ensures Track(Joined, events, |kitchen.store.tables|).Some?
      ensures var p := Track(Joined, events, |kitchen.store.tables|).value;
              p.Joined? || p.Listing? || p.Open? || p.Said?
      ensures Track(Joined, events, |kitchen.store.tables|) == Some(Said) <==>
              outcome != Crashed && script.subscribes && stop
      ensures outcome != Crashed && !stop ==> kitchen.main.Idle? || kitchen.main.Subscribing?
      ensures outcome.Closed? ==> stop
      ensures outcome.Crashed? ==> !stop && script.subscribes && !Calm(script)
      ensures outcome != Crashed ==>
                (stop <==> if script.subscribes then StopsThere(script, t.cut) else script.stopEarly)
      ensures CooksFollow(events)
      ensures outcome != Crashed && script.subscribes ==>
                SessionTold(RulesOf(kitchen), script, |kitchen.store.tables|, old(kitchen.Whole()), events,
                            kitchen.Whole(), t)
    {
      hide Follows, Track, InMemoryStore.Valid, InMemoryStore.Model, Kitchen.View, Kitchen.Whole, CooksFollow, Heard,
           Deeds, Remarks, Announcement, SessionTold;
      ghost var start, n := kitchen.Whole(), |kitchen.store.tables|;
      t := Telling([], [], [], start, start, Hearing([], []), false);
      events := Wait(Joined, script.settling);
      if !script.subscribes {
        return BrokerFailed, script.stopEarly, events, t;
      }
      ghost var mid, more := kitchen.Whole(), [];
      var raised;
      raised, more := Announce(script.pauses, script.last);
      Onward(kitchen.settings, start, events, mid, more, kitchen.Whole(), Joined, n);
      CooksFollowThen(events, more);
      DeedsThen(events, more);
      ghost var before := events + more;
      events := before;
      if raised {
        return Crashed, false, events, t;
      }
      mid := kitchen.Whole();
      var cut;
      ghost var hearing;
      cut, more, hearing := Consume(script.inbox);
      Onward(kitchen.settings, start, events, mid, more, kitchen.Whole(), Joined, n);
      CooksFollowThen(events, more);
      events := events + more;
      stop := StopsThere(script, cut);
      ghost var closed, last := kitchen.Whole(), [];
      StandStill(kitchen.settings, closed);
      if stop {
        last := SayGoodbye(script.unwinding, script.goodbye);
        Onward(kitchen.settings, start, events, closed, last, kitchen.Whole(), Joined, n);
        CooksFollowThen(events, last);
        events := events + last;
      }
      t := Telling(before, more, last, mid, closed, hearing, cut);
      Tells(RulesOf(kitchen), script, n, start, events, kitchen.Whole(), t);
      outcome := if cut || script.ending.StopSignal? then Closed else BrokerFailed;
    }

    /** One connection, from connecting to detaching. */
    method RunSession(script: Script) returns (outcome: Outcome, stop: bool, ghost events: seq<Event>, ghost t: Telling)
      requires kitchen.Valid() && kitchen.main.Offline? && kitchen.publisher.client == None && Fair(script)
      modifies kitchen, kitchen.store, kitchen.store.Repr, kitchen.publisher
      ensures kitchen.Valid() && fresh(kitchen.store.Repr - old(kitchen.store.Repr))
      ensures kitchen.store.tables == old(kitchen.store.tables)
      ensures kitchen.publisher.client == None
      ensures Follows(kitchen.settings, old(kitchen.Whole()), events, kitchen.Whole())
      ensures Track(Between, events, |kitchen.store.tables|) ==
              Some(if outcome != Crashed && script.connects && script.subscribes && stop then Gone else Between)
      ensures outcome != Crashed && !stop ==> kitchen.main.Offline?
      ensures outcome.Closed? ==> stop
      ensures outcome.Crashed? ==> !stop && script.connects && script.subscribes && !Calm(script)
      ensures outcome != Crashed && stop ==> StoppedBy(script, t)
      ensures outcome != Crashed && !stop ==> !StoppedBy(script.(stopInBackoff := false), t)
      ensures CooksFollow(events)
      ensures ScriptPlayed(RulesOf(kitchen), script, |kitchen.store.tables|, old(kitchen.Whole()), events,
                           kitchen.Whole(), t)
    {
      hide Follows, Track, InMemoryStore.Valid, InMemoryStore.Model, Kitchen.View, Kitchen.Whole, Fair, CooksFollow,
           Deeds, Remarks, SessionTold, Calm;
      ghost var start, n := kitchen.Whole(), |kitchen.store.tables|;
      t := Telling([], [], [], start, start, Hearing([], []), false);
      if !script.connects {
        Nothing(kitchen.settings, start, Between, n);
        NoEvents();
        StandStill(kitchen.settings, start);
        return BrokerFailed, script.stopEarly, [], t;
      }
      events := Join(script.client);
      OneRemark(Attach);
      ghost var mid, more := kitchen.Whole(), [];
      outcome, stop, more, t := Converse(script);
      ghost var told := kitchen.Whole();
      Onward(kitchen.settings, start, events, mid, more, told, Between, n);
      CooksFollowThen(events, more);
      events := events + more;
      ghost var last := Leave(Track(Between, events, n).value);
      OneRemark(Detach);
      Onward(kitchen.settings, start, events, told, last, kitchen.Whole(), Between, n);
      CooksFollowThen(events, last);
      events := events + last;
      if outcome != Crashed && script.subscribes {
        t := TellMore(RulesOf(kitchen), script, n, start, [Attach], mid, more, told, [Detach], kitchen.Whole(), t);
      }
      assert events[0] == Attach && events[|events| - 1] == Detach;
    }

    /** Serve until told to stop, reconnecting as needed: every lost session is followed by the
        next, until the stop signal comes, an exception ends the process, or nothing more is in
        store. */
    method Run(scripts: seq<Script>)
        returns (outcome: Outcome, stop: bool, ghost events: seq<Event>, ghost c: Chronicle)
      requires kitchen.Valid() && kitchen.main.Offline? && kitchen.publisher.client == None
      requires forall i :: 0 <= i < |scripts| ==> Fair(scripts[i])
      modifies kitchen, kitchen.store, kitchen.store.Repr, kitchen.publisher
      ensures kitchen.Valid()
      ensures kitchen.store.tables == old(kitchen.store.tables)
      ensures kitchen.publisher.client == None
      ensures Follows(kitchen.settings, old(kitchen.Whole()), events, kitchen.Whole())
      ensures Track(Between, events, |kitchen.store.tables|).Some?
      ensures CooksFollow(events)
      ensures Played(RulesOf(kitchen), scripts, |kitchen.store.tables|, old(kitchen.Whole()), events,
                     kitchen.Whole(), c)
      ensures |c.parts| < |scripts| ==> stop || outcome.Crashed?
      ensures stop ==> |c.parts| > 0 && StoppedBy(scripts[|c.parts| - 1], c.tellings[|c.parts| - 1])
      ensures outcome.Crashed? ==> |c.parts| > 0 && !Calm(scripts[|c.parts| - 1])
    {
      hide Follows, Track, InMemoryStore.Valid, InMemoryStore.Model, Kitchen.View, Kitchen.Whole, Fair, CooksFollow,
           ScriptPlayed, Played, Calm, Flat;
      ghost var start, n := kitchen.Whole(), |kitchen.store.tables|;
      outcome, stop, events, c := BrokerFailed, false, [], Chronicle([start], [], []);
      Nothing(kitchen.settings, start, Between, n);
      NoEvents();
      PlayedNothing(RulesOf(kitchen), scripts, n, start);
      var i := 0;
      while i < |scripts| && !stop && !outcome.Crashed?
        invariant 0 <= i <= |scripts|
        invariant kitchen.Valid() && fresh(kitchen.store.Repr - old(kitchen.store.Repr))
        invariant kitchen.store.tables == old(kitchen.store.tables) && kitchen.publisher.client == None
        invariant Follows(kitchen.settings, start, events, kitchen.Whole())
        invariant Track(Between, events, n).Some?
        invariant !stop && !outcome.Crashed? ==> kitchen.main.Offline? && Track(Between, events, n) == Some(Between)
        invariant Played(RulesOf(kitchen), scripts, n, start, events, kitchen.Whole(), c) && CooksFollow(events)
        invariant |c.parts| == i == |c.tellings|
        invariant stop ==> i > 0 && StoppedBy(scripts[i - 1], c.tellings[i - 1])
        invariant outcome.Crashed? ==> i > 0 && !Calm(scripts[i - 1])
      {
        ghost var mid, more, t := kitchen.Whole(), [], Telling([], [], [], start, start, Hearing([], []), false);
        outcome, stop, more, t := PlayScript(scripts[i]);
        Onward(kitchen.settings, start, events, mid, more, kitchen.Whole(), Between, n);
        CooksFollowThen(events, more);
        PlayedNext(RulesOf(kitchen), scripts, n, start, events, mid, c, more, kitchen.Whole(), t);
        c := Chronicle(c.worlds + [kitchen.Whole()], c.parts + [more], c.tellings + [t]);
        events := events + more;
        i := i + 1;
      }
    }

    /** A session and, if the broker failed it, the wait before the next. */
    method PlayScript(script: Script) returns (outcome: Outcome, stop: bool, ghost events: seq<Event>, ghost t: Telling)
      requires kitchen.Valid() && kitchen.main.Offline? && kitchen.publisher.client == None && Fair(script)
      modifies kitchen, kitchen.store, kitchen.store.Repr, kitchen.publisher
      ensures kitchen.Valid() && fresh(kitchen.store.Repr - old(kitchen.store.Repr))
      ensures kitchen.store.tables == old(kitchen.store.tables)
      ensures kitchen.publisher.client == None
      ensures Follows(kitchen.settings, old(kitchen.Whole()), events, kitchen.Whole())
      ensures Track(Between, events, |kitchen.store.tables|).Some?
      ensures !stop && !outcome.Crashed? ==>
                kitchen.main.Offline? && Track(Between, events, |kitchen.store.tables|) == Some(Between)
      ensures outcome.Crashed? ==> !Calm(script)
      ensures stop ==> StoppedBy(script, t)
      ensures CooksFollow(events)
      ensures ScriptPlayed(RulesOf(kitchen), script, |kitchen.store.tables|, old(kitchen.Whole()), events,
                           kitchen.Whole(), t)
    {
      hide Follows, Track, InMemoryStore.Valid, InMemoryStore.Model, Kitchen.View, Kitchen.Whole, Fair, CooksFollow,
           ScriptPlayed, Calm, Deeds, Remarks;
      ghost var start, n := kitchen.Whole(), |kitchen.store.tables|;
      outcome, stop, events, t := RunSession(script);
      if outcome.BrokerFailed? && !stop {
        ghost var mid := kitchen.Whole();
        ghost var more := Backoff(script);
        Onward(kitchen.settings, start, events, mid, more, kitchen.Whole(), Between, n);
        CooksFollowThen(events, more);
        t := PlayedOn(RulesOf(kitchen), script, n, start, events, mid, t, more, kitchen.Whole());
        events := events + more;
        stop := script.stopInBackoff;
      }
    }

    method Backoff(script: Script) returns (ghost events: seq<Event>)
      requires kitchen.Valid() && Fair(script) && K.AtAwait(kitchen.main)
      modifies kitchen`now, kitchen`cookTasks, kitchen`ledger, kitchen.store.Repr, kitchen.publisher`handed
      ensures kitchen.Valid() && kitchen.store.Repr == old(kitchen.store.Repr)
      ensures Follows(kitchen.settings, old(kitchen.Whole()), events, kitchen.Whole())
      ensures Track(Between, events, |kitchen.store.tables|) == Some(Between)
      ensures Deeds(events) == [] && Remarks(events) == [] && CooksFollow(events)
      ensures forall e :: e in events ==> e.Act?
    {
      events := Wait(Between, script.backoff);
    }
  }

  lemma Tells(rules: Rules, script: Script, n: nat, w: World, events: seq<Event>, w': World, t: Telling)
    requires events == t.before + t.during + t.after
    requires Follows(rules.settings, w, t.before, t.open) && Deeds(t.before) == [] + Announcement(n)
    requires Remarks(t.before) == [] + []
    requires Heard(rules, script.inbox, n, t.open, t.during, t.closed, t.hearing, t.cut)
    requires Follows(rules.settings, t.closed, t.after, w')
    requires Goodbye(script.goodbye) in t.after <==> StopsThere(script, t.cut)
    ensures SessionTold(rules, script, n, w, events, w', t)
  {
    hide Follows, Heard, Announcement, Deeds;
    assert [] + Announcement(n) == Announcement(n);
  }

  lemma AnnouncementFollows(n: nat)
    ensures forall a :: a in Announcement(n) ==> !a.AcceptRaise? && !a.SpawnCook?
  {
  }

  lemma StopLeaves(n: nat)
    ensures TrackOwn(Open, [K.Stop], n) == Some(Leaving)
  {
    assert [K.Stop][1..] == [];
  }

  lemma LastWords(settings: Settings, w: World, delivery: Delivery, w': World, n: nat)
    requires w' == Took(w, delivery, [StatusMessage(false)])
    ensures Follows(settings, w, [Goodbye(delivery)], w')
    ensures Track(Leaving, [Goodbye(delivery)], n) == Some(Said)
  {
    assert [Goodbye(delivery)][1..] == [];
  }

  lemma Nothing(settings: Settings, w: World, p: Phase, n: nat)
    ensures Follows(settings, w, [], w) && Track(p, [], n) == Some(p)
  {
  }

  lemma Onward(settings: Settings, a: World, s: seq<Event>, b: World, t: seq<Event>, c: World, p: Phase, n: nat)
    requires Follows(settings, a, s, b) && Follows(settings, b, t, c) && Track(p, s, n).Some?
    ensures Follows(settings, a, s + t, c)
    ensures Track(p, s + t, n) == Track(Track(p, s, n).value, t, n)
  {
    hide Follows, Track;
    FollowsThen(settings, a, s, b, t, c);
    TrackThen(p, s, t, n);
  }
}
