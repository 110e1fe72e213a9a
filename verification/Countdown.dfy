/** The stopwatch, the countdown and the progress bar a browser draws for a dish.

    Clock readings are integer milliseconds on the kitchen's clock: the browser subtracts its
    estimate of how far its own clock runs ahead. An unparseable time stamp reads as None. */
module Countdown {
  import opened Models
  import opened Browser
  import opened Safety
  import opened Runs
  import opened RestaurantSystem

  function ElapsedSeconds(placedAt: Option<Millis>, now: Millis, offset: Millis): int {
    match placedAt
    case None => 0
    case Some(placed) =>
      var elapsed := now - offset - placed;
      if elapsed > 0 then elapsed / 1000 else 0
  }

  function RemainingSeconds(expectedReadyAt: Option<Millis>, now: Millis, offset: Millis): int {
    match expectedReadyAt
    case None => 0
    case Some(expected) =>
      var remaining := expected - (now - offset);
      if remaining > 0 then remaining / 1000 else 0
  }

  /** Round half up, as `Math.round` does. */
  function Round(x: real): int {
    (x + 0.5).Floor
  }

  function Clamp(low: int, high: int, x: int): int {
    var y := if x < high then x else high;
    if y > low then y else low
  }

  function ProgressPercent(placedAt: Option<Millis>, cookSeconds: int, now: Millis, offset: Millis): int {
    if cookSeconds <= 0 then 100
    else
      var fraction := ElapsedSeconds(placedAt, now, offset) as real / cookSeconds as real;
      Clamp(0, 100, Round(fraction * 100.0))
  }

  /** From placing an order to its dish being ready, in whole seconds. */
  function CookDurationSeconds(o: Order): Option<int> {
    match o.readyAt
    case None => None
    case Some(ready) =>
      var d := Round((ready - o.placedAt) as real / 1000.0);
      Some(if d > 0 then d else 0)
  }

  // --- what the browser shows at the kitchen's time `u` ----------------------------------------

  function Elapsed(o: Order, u: Millis): int {
    ElapsedSeconds(Some(o.placedAt), u, 0)
  }

  function Remaining(o: Order, u: Millis): int {
    RemainingSeconds(Some(o.expectedReadyAt), u, 0)
  }

  function Progress(o: Order, u: Millis): int {
    ProgressPercent(Some(o.placedAt), o.cookSeconds, u, 0)
  }

  /** The deadline agrees with the cook time, as in every order the kitchen makes. */
  predicate Assigned(o: Order) {
    o.expectedReadyAt == o.placedAt + 1000 * o.cookSeconds
  }

  /** Every order in the store, in every state of every run, carries a deadline that agrees
      with its cook time. */
  lemma StoreOrdersAssigned(settings: Settings, states: seq<System>, events: seq<Event>, i: nat, t: TableId, o: Order)
    requires IsRun(settings, states, events) && i < |states|
    requires t in states[i].kitchen.store.tables && o in states[i].kitchen.store.tables[t].orders
    ensures Assigned(o)
  {
    KitchenSound(settings, states, events, i);
    InLedger(settings, states[i].kitchen, t, o);
  }

  /** The offset the browser's store keeps comes from the last live message that told the time.
      If that message took `latency` to arrive, and the browser's clock runs `skew` ahead of the
      kitchen's, then whatever the skew, it cancels: at the kitchen's time `u` the browser shows
      a reading late by just the latency. */
  lemma SkewCancels(o: Order, start: Millis, messages: seq<Incoming>, i: nat, skew: Millis, latency: Millis, u: Millis)
    requires i < |messages| && TellsTime(messages[i])
    requires forall k :: i < k < |messages| ==> !TellsTime(messages[k])
    requires messages[i].arrivedAt == messages[i].producedAt.value + latency + skew
    ensures var offset, now := OffsetAfter(start, messages), u + skew;
            && ElapsedSeconds(Some(o.placedAt), now, offset) == Elapsed(o, u - latency)
            && RemainingSeconds(Some(o.expectedReadyAt), now, offset) == Remaining(o, u - latency)
            && ProgressPercent(Some(o.placedAt), o.cookSeconds, now, offset) == Progress(o, u - latency)
  {
    hide Round;
    OffsetIsLast(start, messages, i);
  }

  // --- a stale reading ------------------------------------------------------------------------

  /** A reading up to 999 ms stale shows the whole seconds that truly remain, or one more, and
      one more exactly when the staleness crosses a second. */
  lemma StaleRemaining(o: Order, u: Millis, stale: nat)
    requires stale < 1000
    ensures Remaining(o, u - stale) ==
            if u < o.expectedReadyAt && (o.expectedReadyAt - u) % 1000 + stale >= 1000
            then Remaining(o, u) + 1 else Remaining(o, u)
  {
  }

  /** The first frame never overstates the cook time. */
  lemma CountdownStartsRight(o: Order, stale: nat)
    requires Assigned(o) && stale < 1000
    ensures Remaining(o, o.placedAt - stale) == o.cookSeconds
    ensures Elapsed(o, o.placedAt - stale) == 0
  {
  }

  /** The alternative the code's comment rejects: round the remaining time up. */
  function RemainingRoundedUp(o: Order, u: Millis): int {
    var remaining := o.expectedReadyAt - u;
    if remaining > 0 then (remaining + 999) / 1000 else 0
  }

  /** Rounded up, the first frame is right only if the reading is not stale at all. */
  lemma CeilingWouldOverstate(o: Order, stale: nat)
    requires Assigned(o) && stale < 1000
    ensures RemainingRoundedUp(o, o.placedAt - stale) == if stale == 0 then o.cookSeconds else o.cookSeconds + 1
  {
  }

  // --- stopwatch and countdown together -------------------------------------------------------

  /** While a dish cooks, seconds gone and seconds left add up to the cook time on the second,
      and to one less in between. */
  lemma ClocksAgree(o: Order, u: Millis)
    requires Assigned(o) && o.placedAt <= u <= o.expectedReadyAt
    ensures Elapsed(o, u) + Remaining(o, u) ==
            if (u - o.placedAt) % 1000 == 0 then o.cookSeconds else o.cookSeconds - 1
  {
    SplitSecond(u - o.placedAt, o.cookSeconds);
  }

  lemma SplitSecond(e: nat, c: nat)
    requires e <= 1000 * c
    ensures e / 1000 + (1000 * c - e) / 1000 == if e % 1000 == 0 then c else c - 1
  {
  }

  // --- the progress bar -----------------------------------------------------------------------

  lemma Cancel(a: real, b: real, c: real)
    requires c > 0.0
    ensures a * c <= b * c <==> a <= b
  {
    if a < b {
      assert (b - a) * c > 0.0;
    } else if b < a {
      assert (a - b) * c > 0.0;
    }
  }

  lemma Product(d: nat, b: nat)
    ensures d * b >= 0
  {
  }

  lemma Distribute(q: int, k: int, b: int)
    ensures (q - k) * b == q * b - k * b
  {
  }

  lemma Scale(q: int, k: int, b: nat)
    ensures if q >= k then q * b >= k * b else q * b + b <= k * b
  {
    if q >= k {
      Product(q - k, b);
      Distribute(q, k, b);
    } else {
      Product(k - q - 1, b);
      Distribute(k, q + 1, b);
      Distribute(q + 1, q, b);
    }
  }

  lemma DivideAtLeast(a: int, b: int, k: int)
    requires b > 0
    ensures a / b >= k <==> a >= k * b
  {
    Scale(a / b, k, b);
  }

  lemma DivideGrows(a: int, a': int, b: int)
    requires a <= a' && b > 0
    ensures a / b <= a' / b
  {
    DivideAtLeast(a, b, a / b);
    DivideAtLeast(a', b, a / b);
  }

  /** `floor` of a quotient of whole numbers, from either side. */
  lemma FloorQuotient(a: int, b: int, x: real)
    requires b > 0 && x * b as real == a as real
    ensures x.Floor == a / b
  {
    var q := a / b;
    DivideAtLeast(a, b, q);
    DivideAtLeast(a, b, q + 1);
    Cancel(q as real, x, b as real);
    Cancel((q + 1) as real, x, b as real);
    assert q as real * b as real == (q * b) as real;
    assert (q + 1) as real * b as real == ((q + 1) * b) as real;
  }

  /** Rounding half up, in whole numbers. */
  lemma RoundFraction(e: int, c: int)
    requires c > 0
    ensures Round(e as real / c as real * 100.0) == (200 * e + c) / (2 * c)
  {
    var f := e as real / c as real;
    assert f * c as real == e as real;
    var x := f * 100.0 + 0.5;
    assert x * (2 * c) as real == 200.0 * (f * c as real) + c as real;
    FloorQuotient(200 * e + c, 2 * c, x);
  }

  /** The bar shows the nearest whole percent of the cook time, halves up, and no more than 100.
      An order without a cook time is shown full. */
  lemma NearestPercent(o: Order, u: Millis)
    ensures var c, e, p := o.cookSeconds, Elapsed(o, u), Progress(o, u);
            if c == 0 || e > c then p == 100 else 2 * c * p <= 200 * e + c < 2 * c * (p + 1)
  {
    var c, e := o.cookSeconds, Elapsed(o, u);
    assert e >= 0;
    hide Round, ElapsedSeconds;
    if c > 0 {
      RoundFraction(e, c);
      DivideAtLeast(200 * e + c, 2 * c, 100);
      DivideAtLeast(200 * e + c, 2 * c, 101);
      if e <= c {
        NearestQuotient(200 * e + c, 2 * c, e, c);
      }
    }
  }

  /** The quotient lies between 0 and 100. */
  lemma NearestQuotient(a: int, b: int, e: int, c: int)
    requires 0 <= e <= c && c > 0 && a == 200 * e + c && b == 2 * c
    ensures 0 <= a / b <= 100 && b * (a / b) <= a < b * (a / b + 1)
  {
    DivideAtLeast(a, b, 0);
    DivideAtLeast(a, b, 101);
  }

  /** The bar is full exactly when the stopwatch has reached 99.5 percent of the cook time. */
  lemma FullExactly(o: Order, u: Millis)
    ensures 0 <= Progress(o, u) <= 100
    ensures Progress(o, u) == 100 <==> 200 * Elapsed(o, u) >= 199 * o.cookSeconds
  {
    hide Round;
    if o.cookSeconds > 0 {
      RoundFraction(Elapsed(o, u), o.cookSeconds);
      DivideAtLeast(200 * Elapsed(o, u) + o.cookSeconds, 2 * o.cookSeconds, 100);
    }
  }

  lemma ElapsedGrows(o: Order, u: Millis, v: Millis)
    requires u <= v
    ensures Elapsed(o, u) <= Elapsed(o, v)
  {
  }

  /** The bar never goes back, nor does the countdown go up. */
  lemma ProgressGrows(o: Order, u: Millis, v: Millis)
    requires u <= v
    ensures Progress(o, u) <= Progress(o, v)
    ensures Remaining(o, v) <= Remaining(o, u)
  {
    hide Round;
    if o.cookSeconds > 0 {
      var c := o.cookSeconds;
      RoundFraction(Elapsed(o, u), c);
      RoundFraction(Elapsed(o, v), c);
      ElapsedGrows(o, u, v);
      hide ElapsedSeconds;
      DivideGrows(200 * Elapsed(o, u) + c, 200 * Elapsed(o, v) + c, 2 * c);
    }
  }

  /** Is the bar full only when nothing remains? For every reading from placement on (or up to
      a second before it, for staleness) exactly if the cook time is below 200 seconds. */
  lemma FullMeansDone(o: Order)
    requires Assigned(o)
    ensures (forall u :: u > o.placedAt - 1000 && Progress(o, u) == 100 ==> Remaining(o, u) == 0)
            <==> o.cookSeconds < 200
  {
    hide ProgressPercent;
    if o.cookSeconds < 200 {
      forall u | u > o.placedAt - 1000 && Progress(o, u) == 100 ensures Remaining(o, u) == 0 {
        FullExactly(o, u);
      }
    } else {
      var u := o.placedAt + 1000 * (o.cookSeconds - 1);
      FullExactly(o, u);
      assert Remaining(o, u) == 1;
    }
  }

  // --- the two clocks -------------------------------------------------------------------------

  /** The stopwatch shows the whole seconds gone since the order was placed, and 0 before. */
  lemma ElapsedExactly(o: Order, u: Millis)
    ensures if u <= o.placedAt then Elapsed(o, u) == 0
            else 1000 * Elapsed(o, u) <= u - o.placedAt < 1000 * (Elapsed(o, u) + 1)
  {
  }

  /** The countdown shows the whole seconds left, and 0 from the deadline on. */
  lemma RemainingExactly(o: Order, u: Millis)
    ensures if u >= o.expectedReadyAt then Remaining(o, u) == 0
            else 1000 * Remaining(o, u) <= o.expectedReadyAt - u < 1000 * (Remaining(o, u) + 1)
  {
  }

  /** A time stamp that does not parse reads as nothing gone and nothing left, whatever the clocks. */
  lemma UnreadableIsZero(cookSeconds: int, now: Millis, offset: Millis)
    ensures ElapsedSeconds(None, now, offset) == 0 && RemainingSeconds(None, now, offset) == 0
    ensures ProgressPercent(None, cookSeconds, now, offset) == if cookSeconds <= 0 then 100 else 0
  {
    if cookSeconds > 0 {
      assert 0 as real / cookSeconds as real == 0.0;
    }
  }

  // --- how long it took -----------------------------------------------------------------------

  /** A finished dish is shown to have taken the nearest whole number of seconds, halves up, and
      never less than none; one that is not finished is shown without a duration. */
  lemma DurationExactly(o: Order)
    ensures o.readyAt.None? ==> CookDurationSeconds(o) == None
    ensures o.readyAt.Some? ==> CookDurationSeconds(o).Some?
    ensures o.readyAt.Some? ==>
              var took, d := o.readyAt.value - o.placedAt, CookDurationSeconds(o).value;
              if took < -500 then d == 0 else 1000 * d <= took + 500 < 1000 * (d + 1)
  {
    if o.readyAt.Some? {
      var took := o.readyAt.value - o.placedAt;
      var x := took as real / 1000.0 + 0.5;
      assert x * 1000.0 == (took + 500) as real;
      FloorQuotient(took + 500, 1000, x);
    }
  }

  /** In every run, a dish shown as served is shown to have taken at least its cook time. */
  lemma TookAtLeastAssigned(settings: Settings, states: seq<System>, events: seq<Event>, i: nat, t: TableId, o: Order)
    requires IsRun(settings, states, events) && i < |states|
    requires t in states[i].kitchen.store.tables && o in states[i].kitchen.store.tables[t].orders
    ensures CookDurationSeconds(o).Some? <==> o.status == Served
    ensures o.status == Served ==> CookDurationSeconds(o).value >= o.cookSeconds
  {
    KitchenSound(settings, states, events, i);
    InLedger(settings, states[i].kitchen, t, o);
  }
}
