/** The coroutines' sessions are runs of the restaurant: what is proved of every run holds of
    whatever the coroutines do, however the link, the broker and the windows behave meanwhile.

    A session's client is attached just as long as its link is up: a link that breaks earlier
    carries nothing more until the session notices, which is how its last publishes fare. */
module Embedding {
  import opened Models
  import opened KitchenModel
  import opened Replication
  import opened RestaurantSystem
  import opened Runs
  import opened Convergence
  import opened BrowserWindows
  import opened Losses
  import H = HeapKitchen
  import S = Session

  /** The kitchens are the same, and there is a client just when the link is up. */
  predicate Aligned(w: H.World, s: System) {
    w.kitchen == s.kitchen && w.attached == s.wire.up
  }

  // --- event by event ---------------------------------------------------------------------------

  function HandedIn(w: H.World, m: H.Moment): bool {
    w.attached && m.delivery == H.Taken
  }

  /** What an event of the coroutines is to the restaurant. */
  function Realised(w: H.World, e: S.Event): seq<Event> {
    match e
    case Attach => [KitchenActs(Connect, false)]
    case Act(m) => [KitchenActs(m.action, HandedIn(w, m))]
    case Detach =>
      if w.kitchen.main.Idle? || w.kitchen.main.Subscribing? then [LinkActs(Cut), KitchenActs(SessionEnd, false)]
      else [LinkActs(Cut)]
    case _ => []
  }

  /** Where events lead, as far as they can happen. */
  function Play(settings: Settings, s: System, es: seq<Event>): System
    decreases |es|
  {
    if es == [] || !CanHappen(settings, s, es[0]) then s
    else Play(settings, Happens(settings, s, es[0]), es[1..])
  }

  ghost predicate Playable(settings: Settings, s: System, es: seq<Event>)
    decreases |es|
  {
    es == [] || (CanHappen(settings, s, es[0]) && Playable(settings, Happens(settings, s, es[0]), es[1..]))
  }

  lemma {:induction false} PlayThen(settings: Settings, s: System, a: seq<Event>, b: seq<Event>)
    requires Playable(settings, s, a) && Playable(settings, Play(settings, s, a), b)
    ensures Playable(settings, s, a + b)
    ensures Play(settings, s, a + b) == Play(settings, Play(settings, s, a), b)
    decreases |a|
  {
    hide CanHappen, Happens;
    if a == [] {
      assert a + b == b;
    } else {
      assert (a + b)[1..] == a[1..] + b;
      PlayThen(settings, Happens(settings, s, a[0]), a[1..], b);
    }
  }

  lemma PlayOne(settings: Settings, s: System, e: Event)
    requires CanHappen(settings, s, e)
    ensures Playable(settings, s, [e]) && Play(settings, s, [e]) == Happens(settings, s, e)
  {
    hide CanHappen, Happens;
    assert [e][1..] == [];
  }

  lemma ActRealised(settings: Settings, w: H.World, s: System, m: H.Moment)
    requires Aligned(w, s) && Enabled(settings, w.kitchen, m.action)
    requires !m.action.Connect? && !m.action.SessionEnd? && !m.action.Restart?
    ensures var e := KitchenActs(m.action, HandedIn(w, m));
            CanHappen(settings, s, e) && Aligned(H.Step(settings, w, m), Happens(settings, s, e))
  {
    hide Enabled, Next, EffectOf, H.Outgoing;
    RestartIsRelaunch(settings, s.kitchen, m.action);
  }

  /** An event of a session that keeps to the protocol is a stretch of a run, from a restaurant
      in the same state to one in the same state. */
  lemma EventRealised(settings: Settings, w: H.World, s: System, e: S.Event, p: S.Phase, n: nat)
    requires Aligned(w, s) && S.Possible(settings, w, e) && S.Advance(p, e, n).Some?
    ensures Playable(settings, s, Realised(w, e))
    ensures Aligned(S.After(settings, w, e), Play(settings, s, Realised(w, e)))
  {
    match e
    case Attach => PlayOne(settings, s, KitchenActs(Connect, false));
    case Act(m) =>
      ActRealised(settings, w, s, m);
      hide H.Step;
      PlayOne(settings, s, KitchenActs(m.action, HandedIn(w, m)));
    case Detach =>
      PlayOne(settings, s, LinkActs(Cut));
      if w.kitchen.main.Idle? || w.kitchen.main.Subscribing? {
        var cut := Happens(settings, s, LinkActs(Cut));
        PlayOne(settings, cut, KitchenActs(SessionEnd, false));
        PlayThen(settings, s, [LinkActs(Cut)], [KitchenActs(SessionEnd, false)]);
        assert [LinkActs(Cut)] + [KitchenActs(SessionEnd, false)] == [LinkActs(Cut), KitchenActs(SessionEnd, false)];
      }
    case _ =>
  }

  // --- with everything else going on -----------------------------------------------------------

  /** Of what the link, the broker and the windows are to do, all that can happen, in turn. */
  function Surroundings(w: Wire, acts: seq<LinkAction>): seq<Event>
    decreases |acts|
  {
    if acts == [] then []
    else if acts[0].Cut? || !LinkEnabled(w, acts[0]) then Surroundings(w, acts[1..])
    else [LinkActs(acts[0])] + Surroundings(NextLink(w, acts[0]), acts[1..])
  }

  lemma {:induction false} SurroundingsPlay(settings: Settings, w: H.World, s: System, acts: seq<LinkAction>)
    requires Aligned(w, s)
    ensures Playable(settings, s, Surroundings(s.wire, acts))
    ensures Aligned(w, Play(settings, s, Surroundings(s.wire, acts)))
    decreases |acts|
  {
    if acts == [] {
    } else {
      hide LinkEnabled, NextLink;
      if acts[0].Cut? || !LinkEnabled(s.wire, acts[0]) {
        SurroundingsPlay(settings, w, s, acts[1..]);
      } else {
        StaysUp(s.wire, acts[0]);
        var e := LinkActs(acts[0]);
        PlayOne(settings, s, e);
        SurroundingsPlay(settings, w, Happens(settings, s, e), acts[1..]);
        PlayThen(settings, s, [e], Surroundings(NextLink(s.wire, acts[0]), acts[1..]));
      }
    }
  }

  lemma StaysUp(w: Wire, a: LinkAction)
    requires LinkEnabled(w, a) && !a.Cut?
    ensures NextLink(w, a).up == w.up
  {
  }

  /** The run a session's events make when `around(i)` is what is to happen around them after
      event `i`. */
  function Woven(settings: Settings, w: H.World, events: seq<S.Event>, s: System, around: nat -> seq<LinkAction>,
                 i: nat): seq<Event>
    decreases |events|
  {
    if events == [] || !S.Possible(settings, w, events[0]) then []
    else
      var own := Realised(w, events[0]);
      var s' := Play(settings, s, own);
      var rest := Surroundings(s'.wire, around(i));
      var s'' := Play(settings, s', rest);
      own + rest + Woven(settings, S.After(settings, w, events[0]), events[1..], s'', around, i + 1)
  }

  /** From a restaurant in the same state, the events of a session that keeps to the protocol,
      whatever happens around them, can all happen, and end in the same state. */
  lemma {:induction false} SessionsEmbed(
      settings: Settings, w: H.World, events: seq<S.Event>, w': H.World, p: S.Phase, n: nat, s: System,
      around: nat -> seq<LinkAction>, i: nat)
    requires S.Follows(settings, w, events, w') && S.Track(p, events, n).Some? && Aligned(w, s)
    ensures var es := Woven(settings, w, events, s, around, i);
            Playable(settings, s, es) && Aligned(w', Play(settings, s, es))
    decreases |events|
  {
    hide S.Possible, S.After, S.Advance, Realised, Surroundings, Aligned, Play, Playable;
    if events == [] {
      PlayNothing(settings, s);
    } else {
      var e := events[0];
      var own := Realised(w, e);
      EventRealised(settings, w, s, e, p, n);
      var s' := Play(settings, s, own);
      var rest := Surroundings(s'.wire, around(i));
      SurroundingsPlay(settings, S.After(settings, w, e), s', around(i));
      PlayThen(settings, s, own, rest);
      var s'' := Play(settings, s', rest);
      var after, q := S.After(settings, w, e), S.Advance(p, e, n).value;
      SessionsEmbed(settings, after, events[1..], w', q, n, s'', around, i + 1);
      PlayThen(settings, s, own + rest, Woven(settings, after, events[1..], s'', around, i + 1));
    }
  }

  lemma PlayNothing(settings: Settings, s: System)
    ensures Playable(settings, s, []) && Play(settings, s, []) == s
  {
  }

  // --- runs -------------------------------------------------------------------------------------

  /** The states events lead through. */
  function Passed(settings: Settings, s: System, es: seq<Event>): (r: seq<System>)
    requires Playable(settings, s, es)
    ensures |r| == |es| + 1 && r[0] == s
    decreases |es|
  {
    if es == [] then [s] else [s] + Passed(settings, Happens(settings, s, es[0]), es[1..])
  }

  lemma {:induction false} PassedSteps(settings: Settings, s: System, es: seq<Event>)
    requires Playable(settings, s, es)
    ensures var states := Passed(settings, s, es);
            && states[|es|] == Play(settings, s, es)
            && forall i :: 0 <= i < |es| ==> Step(settings, states[i], es[i], states[i + 1])
    decreases |es|
  {
    hide CanHappen, Happens;
    if es == [] {
    } else {
      var next := Happens(settings, s, es[0]);
      PassedSteps(settings, next, es[1..]);
      var states, rest := Passed(settings, s, es), Passed(settings, next, es[1..]);
      forall i | 0 <= i < |es| ensures Step(settings, states[i], es[i], states[i + 1]) {
        if i > 0 {
          assert Step(settings, rest[i - 1], es[1..][i - 1], rest[i]);
        }
      }
    }
  }

  function Process(settings: Settings, now: Millis): H.World {
    H.World(Fresh(settings, 0, now), false, [])
  }

  /** Whatever the coroutines of a process do from its start, connecting, announcing, handling,
      cooking, losing the link and shutting down, and whatever happens around them, is a run of
      the restaurant, which ends with the very kitchen the coroutines leave. */
  lemma SessionsAreRuns(
      settings: Settings, now: Millis, events: seq<S.Event>, w': H.World, n: nat, around: nat -> seq<LinkAction>)
      returns (states: seq<System>, es: seq<Event>)
    requires S.Follows(settings, Process(settings, now), events, w') && S.Track(S.Between, events, n).Some?
    ensures es == Woven(settings, Process(settings, now), events, Start(settings, now), around, 0)
    ensures IsRun(settings, states, es) && Aligned(w', states[|es|])
  {
    hide S.Follows, S.Track, Woven, CanHappen, Happens;
    var s := Start(settings, now);
    es := Woven(settings, Process(settings, now), events, s, around, 0);
    SessionsEmbed(settings, Process(settings, now), events, w', S.Between, n, s, around, 0);
    states := Passed(settings, s, es);
    PassedSteps(settings, s, es);
  }

  /** Since the announce at `i` nothing has been lost, and window `c` has stayed subscribed and
      been sent nothing late. */
  ghost predicate Undisturbed(settings: Settings, states: seq<System>, es: seq<Event>, i: nat, c: int)
    requires |states| == |es| + 1
  {
    && i < |es| && es[i].KitchenActs? && es[i].action.AnnounceStart? && states[i].wire.up
    && Listening(states[i].wire, c)
    && (forall k :: i < k < |es| ==> Lossless(settings, states[k], es[k]))
    && (forall k :: i <= k < |es| ==> !Resubscribes(es[k], c))
    && (forall k, t :: i <= k < |es| ==> !IsLate(states[k], es[k], c, t))
  }

  /** So what is proved of runs is true of the coroutines. The windows converge, for one: once an
      announce is through, with nothing lost, a window that has received what was sent shows the
      store the coroutines hold. */
  lemma CoroutinesConverge(
      settings: Settings, now: Millis, events: seq<S.Event>, w': H.World, n: nat, around: nat -> seq<LinkAction>,
      states: seq<System>, es: seq<Event>, i: nat, c: int)
    requires S.Follows(settings, Process(settings, now), events, w') && S.Track(S.Between, events, n).Some?
    requires es == Woven(settings, Process(settings, now), events, Start(settings, now), around, 0)
    requires Playable(settings, Start(settings, now), es) && states == Passed(settings, Start(settings, now), es)
    requires Undisturbed(settings, states, es, i, c)
    requires Todo(w'.kitchen) == [] && Drained(states[|es|].wire, c)
    ensures Shows(states[|es|].wire.clients[c].view, w'.kitchen.store)
  {
    hide S.Follows, S.Track, Woven, Playable, Passed, Drained, Shows, Todo, Lossless, Resubscribes, IsLate, CanHappen,
         Happens;
    SessionsEmbed(settings, Process(settings, now), events, w', S.Between, n, Start(settings, now), around, 0);
    PassedSteps(settings, Start(settings, now), es);
    WindowsConverge(settings, states, es, i, |es|, c);
  }

  /** And the next process starts aligned, from wherever the last one left the restaurant. */
  lemma RestartAligns(settings: Settings, s: System, handed: seq<H.Message>)
    ensures CanHappen(settings, s, KitchenActs(Restart, false))
    ensures Aligned(H.World(Fresh(settings, s.kitchen.store.epoch + 1, s.kitchen.now), false, handed),
                    Happens(settings, s, KitchenActs(Restart, false)))
  {
    hide Fresh;
  }

  // --- what is handed over ----------------------------------------------------------------------

  /** The table snapshots among some messages. */
  function Snapshots(messages: seq<H.Message>): seq<TableState> {
    if messages == [] then []
    else if messages[0].TableMessage? then [messages[0].state] + Snapshots(messages[1..])
    else Snapshots(messages[1..])
  }

  /** What a client takes of an action is what enters the link. */
  lemma HandedAlike(settings: Settings, w: H.World, s: System, m: H.Moment)
    requires Aligned(w, s) && SystemInv(settings, s) && Enabled(settings, w.kitchen, m.action)
    requires !m.action.Connect? && !m.action.SessionEnd? && !m.action.Restart?
    ensures var e := KitchenActs(m.action, HandedIn(w, m));
            && CanHappen(settings, s, e)
            && exists taken :: H.Step(settings, w, m).handed == w.handed + taken
                 && Stream(Happens(settings, s, e).wire) == Stream(s.wire) + Snapshots(taken)
  {
    var e := KitchenActs(m.action, HandedIn(w, m));
    ActRealised(settings, w, s, m);
    hide SystemInv, Stream, Enabled, Next, Happens, CanHappen;
    EventStream(settings, s, e);
    var taken := if HandedIn(w, m) then H.Outgoing(settings, w.kitchen, m.action) else [];
    if HandedIn(w, m) {
      SentAlone(settings, w.kitchen, m.action);
      if Sent(settings, w.kitchen, m.action).Some? {
        assert Hands(settings, s, e, Sent(settings, w.kitchen, m.action).value);
      }
    }
  }

  lemma SentAlone(settings: Settings, k: Kitchen, a: Action)
    requires Enabled(settings, k, a)
    ensures Snapshots(H.Outgoing(settings, k, a)) ==
            if Sent(settings, k, a).Some? then [Sent(settings, k, a).value] else []
  {
    hide Enabled, Sent, TryAccept;
    var out := H.Outgoing(settings, k, a);
    assert |out| <= 1;
    assert out != [] ==> out[1..] == [];
  }
}
