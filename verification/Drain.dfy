/** Left to themselves the cooks finish, and they finish side by side. */
module Drain {
  import opened Models
  import opened OrderLists
  import opened StoreModel
  import opened KitchenModel
  import opened KitchenInvariants
  import opened KitchenProofs

  predicate OnDish(a: Action) {
    a.TaskStart? || a.TaskWake? || a.TaskReturn? || a.TaskRaise? || a.TaskReap?
  }

  // --- every schedule ends ------------------------------------------------------------------

  function SpawnedTasks(k: Kitchen): set<nat> {
    set i | i in k.tasks && k.tasks[i].phase.Spawned?
  }

  /** How many more stretches the cooks can run. */
  function Work(k: Kitchen): nat {
    |k.tasks.Keys| + |UnservedTasks(k)| + |SpawnedTasks(k)|
  }

  lemma SubsetSize(a: set<nat>, b: set<nat>)
    requires a <= b
    ensures |a| <= |b| && (a != b ==> |a| < |b|)
  {
    assert b == a + (b - a);
    if a != b {
      var x :| x in b - a;
    }
  }

  lemma LessWork(k: Kitchen, k': Kitchen)
    requires k'.tasks.Keys <= k.tasks.Keys
    requires UnservedTasks(k') <= UnservedTasks(k) && SpawnedTasks(k') <= SpawnedTasks(k)
    requires || k'.tasks.Keys != k.tasks.Keys
             || UnservedTasks(k') != UnservedTasks(k)
             || SpawnedTasks(k') != SpawnedTasks(k)
    ensures Work(k') < Work(k)
  {
    SubsetSize(k'.tasks.Keys, k.tasks.Keys);
    SubsetSize(UnservedTasks(k'), UnservedTasks(k));
    SubsetSize(SpawnedTasks(k'), SpawnedTasks(k));
  }

  /** Every stretch a cook runs leaves fewer to run. */
  lemma WorkDecreases(settings: Settings, k: Kitchen, a: Action)
    requires Enabled(settings, k, a) && OnDish(a)
    ensures Work(Next(settings, k, a)) < Work(k)
  {
    hide FinishOrder, Work;
    var k' := Next(settings, k, a);
    var i := a.task;
    assert k'.tasks == k.tasks - {i} || exists p :: k'.tasks == k.tasks[i := k.tasks[i].(phase := p)];
    assert i in k.tasks.Keys;
    assert a.TaskStart? ==> i in SpawnedTasks(k) && i !in SpawnedTasks(k');
    assert a.TaskWake? ==> i in UnservedTasks(k) && i !in UnservedTasks(k');
    LessWork(k, k');
  }

  /** With no cook left, and no acceptance or reset under way, nothing is cooking. */
  lemma NothingCooking(settings: Settings, k: Kitchen, t: TableId)
    requires Inv(settings, k) && UnservedTasks(k) == {} && k.orphans == {} && t in settings.tables
    requires !k.main.Accepting? && !k.main.Cancelling? && !k.main.Stopping?
    ensures t in k.store.tables && CookingOrders(k.store.tables[t].orders) == []
  {
    hide Windowed, Capped, Punctual, Numbered, TaskMatches, OneTaskPerDish, MainSound, Trim;
    CountFromLedger(k, t);
    assert forall i :: i in k.tasks ==> i !in UnservedTasks(k);
    forall o | o in k.ledger[t] ensures IsFinished(o) {
      var i :| 0 <= i < |k.ledger[t]| && k.ledger[t][i] == o;
      assert Attended(k, t, k.ledger[t][i]);
    }
    NoneCooking(k.ledger[t]);
  }

  lemma {:induction false} NoneCooking(orders: seq<Order>)
    requires forall o :: o in orders ==> IsFinished(o)
    ensures CookingOrders(orders) == []
  {
    if orders == [] {
    } else {
      NoneCooking(orders[1..]);
    }
  }

  // --- side by side, not one after another ----------------------------------------------------

  /** The clock waits for every cook that has something to do: none still to be started, none
      whose sleep would be overshot. */
  predicate Prompt(k: Kitchen, elapsed: nat) {
    forall i :: i in k.tasks && Unserved(k.tasks[i]) ==>
      k.tasks[i].phase.Sleeping? && k.now + elapsed <= k.tasks[i].phase.due
  }

  /** Only cooks and the clock act, and the clock waits for the cooks. */
  ghost predicate QuietRun(settings: Settings, ks: seq<Kitchen>, acts: seq<Action>) {
    && |ks| == |acts| + 1
    && forall i :: 0 <= i < |acts| ==>
         && Enabled(settings, ks[i], acts[i])
         && ks[i + 1] == Next(settings, ks[i], acts[i])
         && (OnDish(acts[i]) || (acts[i].Tick? && Prompt(ks[i], acts[i].elapsed)))
  }

  /** When a task is to serve its dish, if it starts as soon as it can. */
  function Deadline(k: Kitchen, c: CookTask): Millis {
    match c.phase
    case Sleeping(due) => due
    case _ => k.now + 1000 * c.cookSeconds
  }

  /** While a dish is unserved, both the clock and its deadline are within `limit`. */
  ghost predicate Within(k: Kitchen, limit: Millis) {
    forall i :: i in k.tasks && Unserved(k.tasks[i]) ==> k.now <= limit && Deadline(k, k.tasks[i]) <= limit
  }

  /** No cook has overslept. */
  ghost predicate OnTime(k: Kitchen) {
    forall i :: i in k.tasks && k.tasks[i].phase.Sleeping? ==> k.now <= k.tasks[i].phase.due
  }

  lemma WithinStays(settings: Settings, k: Kitchen, a: Action, limit: Millis)
    requires Within(k, limit) && Enabled(settings, k, a)
    requires OnDish(a) || (a.Tick? && Prompt(k, a.elapsed))
    ensures Within(Next(settings, k, a), limit)
    ensures OnTime(k) ==> OnTime(Next(settings, k, a))
  {
    hide FinishOrder;
    var k' := Next(settings, k, a);
    forall i | i in k'.tasks && Unserved(k'.tasks[i])
      ensures k'.now <= limit && Deadline(k', k'.tasks[i]) <= limit
      ensures OnTime(k) && k'.tasks[i].phase.Sleeping? ==> k'.now <= k'.tasks[i].phase.due
    {
      assert i in k.tasks && Unserved(k.tasks[i]);
    }
  }

  /** The greatest of the deadlines of some tasks, or the present if that is later. */
  ghost function LatestDeadline(k: Kitchen, ids: set<nat>): (r: Millis)
    requires ids <= k.tasks.Keys
    ensures k.now <= r && forall i :: i in ids ==> Deadline(k, k.tasks[i]) <= r
    ensures r == k.now || exists i :: i in ids && Deadline(k, k.tasks[i]) == r
  {
    if ids == {} then k.now
    else
      var i :| i in ids;
      var rest := LatestDeadline(k, ids - {i});
      if Deadline(k, k.tasks[i]) > rest then Deadline(k, k.tasks[i]) else rest
  }

  lemma LatestIsLimit(k: Kitchen)
    ensures Within(k, LatestDeadline(k, UnservedTasks(k)))
  {
  }

  /** What one quiet step keeps. */
  lemma QuietStepKeeps(settings: Settings, k: Kitchen, a: Action, limit: Millis)
    requires Inv(settings, k) && Within(k, limit) && Enabled(settings, k, a)
    requires OnDish(a) || (a.Tick? && Prompt(k, a.elapsed))
    ensures Inv(settings, Next(settings, k, a)) && Within(Next(settings, k, a), limit)
    ensures OnTime(k) ==> OnTime(Next(settings, k, a))
  {
    hide BooksInv, StaffInv, Within, OnTime;
    StepKeeps(settings, k, a);
    WithinStays(settings, k, a, limit);
  }

  /** All along a quiet run the kitchen is sound and in time. */
  lemma {:induction false} QuietRunKeeps(settings: Settings, ks: seq<Kitchen>, acts: seq<Action>, n: nat, limit: Millis)
    requires QuietRun(settings, ks, acts) && n < |ks|
    requires Inv(settings, ks[0]) && Within(ks[0], limit)
    ensures Inv(settings, ks[n]) && Within(ks[n], limit)
    ensures OnTime(ks[0]) ==> OnTime(ks[n])
  {
    hide Inv, Within, OnTime, Next, Enabled, Prompt;
    if n == 0 {
    } else {
      QuietRunKeeps(settings, ks, acts, n - 1, limit);
      QuietStepKeeps(settings, ks[n - 1], acts[n - 1], limit);
    }
  }

  /** Nor does it disturb anything else, and it has only so much left to do. */
  lemma {:induction false} QuietRunProgress(settings: Settings, ks: seq<Kitchen>, acts: seq<Action>, n: nat)
    requires QuietRun(settings, ks, acts) && n < |ks|
    ensures ks[n].main == ks[0].main && ks[n].orphans == ks[0].orphans
    ensures Work(ks[n]) + DishSteps(acts[..n]) <= Work(ks[0])
  {
    hide Next, Enabled, Prompt, Work, OnDish;
    if n == 0 {
    } else {
      QuietRunProgress(settings, ks, acts, n - 1);
      QuietStep(settings, ks[n - 1], acts[n - 1]);
      WorkLeft(settings, ks[n - 1], acts[n - 1]);
      assert acts[..n][..n - 1] == acts[..n - 1];
    }
  }

  /** A dish still unserved was unserved before, with the same deadline. */
  lemma DeadlineStays(settings: Settings, k: Kitchen, a: Action, i: nat)
    requires Enabled(settings, k, a) && (OnDish(a) || (a.Tick? && Prompt(k, a.elapsed)))
    requires i in Next(settings, k, a).tasks && Unserved(Next(settings, k, a).tasks[i])
    ensures var c' := Next(settings, k, a).tasks[i];
            && i in k.tasks && Unserved(k.tasks[i])
            && Deadline(Next(settings, k, a), c') == Deadline(k, k.tasks[i])
            && c'.tableId == k.tasks[i].tableId && c'.orderId == k.tasks[i].orderId
  {
    hide FinishOrder;
  }

  lemma {:induction false} DeadlineHolds(settings: Settings, ks: seq<Kitchen>, acts: seq<Action>, n: nat, i: nat)
    requires QuietRun(settings, ks, acts) && n < |ks| && i in ks[n].tasks && Unserved(ks[n].tasks[i])
    ensures i in ks[0].tasks && Unserved(ks[0].tasks[i])
    ensures Deadline(ks[n], ks[n].tasks[i]) == Deadline(ks[0], ks[0].tasks[i])
    ensures ks[n].tasks[i].tableId == ks[0].tasks[i].tableId && ks[n].tasks[i].orderId == ks[0].tasks[i].orderId
  {
    hide Next, Enabled, Prompt, Deadline, OnDish, Unserved;
    if n == 0 {
    } else {
      DeadlineStays(settings, ks[n - 1], acts[n - 1], i);
      DeadlineHolds(settings, ks, acts, n - 1, i);
    }
  }

  /** The history's entry of a dish that has just been served. */
  lemma WakeMarks(settings: Settings, k: Kitchen, i: nat)
    requires Inv(settings, k) && Enabled(settings, k, TaskWake(i))
    ensures var dish := Dish(Next(settings, k, TaskWake(i)), k.tasks[i]);
            dish.Some? && dish.value.status == Served && dish.value.readyAt == Some(k.now)
  {
    hide FinishOrder, Windowed, Capped, Punctual, Numbered, OneTaskPerDish, AllAttended, MainSound, Trim, Mark;
    var c := k.tasks[i];
    assert TaskMatches(k, c);
    WakeFinishes(settings, k, i);
    LookupMark(k.ledger[c.tableId], c.orderId, Served, k.now, c.orderId);
  }

  /** A cook that has not overslept wakes at the very moment its timer runs out. */
  lemma WakesOnTime(settings: Settings, ks: seq<Kitchen>, acts: seq<Action>, n: nat)
    requires QuietRun(settings, ks, acts) && n < |acts| && acts[n].TaskWake?
    requires Inv(settings, ks[0]) && OnTime(ks[0])
    ensures n + 1 < |ks| && Inv(settings, ks[n])
    ensures Enabled(settings, ks[n], acts[n]) && ks[n + 1] == Next(settings, ks[n], acts[n])
    ensures var i := acts[n].task;
            i in ks[n].tasks && Unserved(ks[n].tasks[i]) && Deadline(ks[n], ks[n].tasks[i]) == ks[n].now
  {
    hide Inv, Within, Next;
    LatestIsLimit(ks[0]);
    QuietRunKeeps(settings, ks, acts, n, LatestDeadline(ks[0], UnservedTasks(ks[0])));
  }

  /** However many other dishes are cooking, each is served at its own deadline: a dish unserved
      at the start, started or not, that is served in a quiet run gets for its ready time the
      deadline it had at the start, fixed by its own cook time. */
  lemma ServedWhenDue(settings: Settings, ks: seq<Kitchen>, acts: seq<Action>, n: nat)
    requires QuietRun(settings, ks, acts) && n < |acts| && acts[n].TaskWake?
    requires Inv(settings, ks[0]) && OnTime(ks[0])
    ensures acts[n].task in ks[0].tasks && Unserved(ks[0].tasks[acts[n].task])
    ensures var c := ks[0].tasks[acts[n].task];
            var dish := Dish(ks[n + 1], c);
            dish.Some? && dish.value.status == Served && dish.value.readyAt == Some(Deadline(ks[0], c))
  {
    hide Inv, OnTime, Next, Enabled, Lookup, QuietRun, Unserved, Deadline;
    WakesOnTime(settings, ks, acts, n);
    DeadlineHolds(settings, ks, acts, n, acts[n].task);
    WakeMarks(settings, ks[n], acts[n].task);
  }

  lemma QuietStep(settings: Settings, k: Kitchen, a: Action)
    requires Enabled(settings, k, a) && (OnDish(a) || a.Tick?)
    ensures Next(settings, k, a).main == k.main && Next(settings, k, a).orphans == k.orphans
  {
    hide FinishOrder;
  }

  lemma WorkLeft(settings: Settings, k: Kitchen, a: Action)
    requires Enabled(settings, k, a) && (OnDish(a) || a.Tick?)
    ensures Work(Next(settings, k, a)) + (if OnDish(a) then 1 else 0) <= Work(k)
  {
    if OnDish(a) {
      hide Work, Next, Enabled;
      WorkDecreases(settings, k, a);
    }
  }

  function DishSteps(acts: seq<Action>): nat {
    if acts == [] then 0
    else DishSteps(acts[..|acts| - 1]) + (if OnDish(acts[|acts| - 1]) then 1 else 0)
  }

  /** Overlap. From any sound state, with no new input: however the cooks are scheduled, they
      run no more stretches than they have left; and if the clock waits for them, then once it
      is past the latest deadline of a dish still unserved at the start, the greatest and not
      the sum, nothing is cooking at any table. */
  lemma CooksOverlap(settings: Settings, ks: seq<Kitchen>, acts: seq<Action>, n: nat, t: TableId)
    requires QuietRun(settings, ks, acts) && n < |ks| && Inv(settings, ks[0])
    requires ks[0].orphans == {} && t in settings.tables
    requires !ks[0].main.Accepting? && !ks[0].main.Cancelling? && !ks[0].main.Stopping?
    ensures DishSteps(acts[..n]) <= Work(ks[0])
    ensures ks[n].now > LatestDeadline(ks[0], UnservedTasks(ks[0])) ==>
              t in ks[n].store.tables && CookingOrders(ks[n].store.tables[t].orders) == []
  {
    hide BooksInv, StaffInv, QuietRun, CookingOrders, Work;
    var limit := LatestDeadline(ks[0], UnservedTasks(ks[0]));
    LatestIsLimit(ks[0]);
    QuietRunKeeps(settings, ks, acts, n, limit);
    QuietRunProgress(settings, ks, acts, n);
    if ks[n].now > limit {
      assert UnservedTasks(ks[n]) == {};
      NothingCooking(settings, ks[n], t);
    }
  }

  /** A cook never waits on another: while any dish is unserved and the main coroutine awaits,
      some cook can run now, or the clock can move without overshooting anyone. In the middle
      of a stretch it is the main coroutine that can go on. */
  lemma NeverStuck(settings: Settings, k: Kitchen)
    requires UnservedTasks(k) != {}
    ensures || (exists i :: Enabled(settings, k, TaskStart(i)) || Enabled(settings, k, TaskWake(i)))
            || Prompt(k, 1)
            || (!AtAwait(k.main) && exists a :: !OnDish(a) && !a.Tick? && !a.Restart? && Enabled(settings, k, a))
  {
    if AtAwait(k.main) && !Prompt(k, 1) {
      var i :| i in k.tasks && Unserved(k.tasks[i])
               && !(k.tasks[i].phase.Sleeping? && k.now + 1 <= k.tasks[i].phase.due);
      assert Enabled(settings, k, TaskStart(i)) || Enabled(settings, k, TaskWake(i));
    } else if !AtAwait(k.main) {
      var a := if k.main.Announcing? then (if k.main.todo == [] then AnnounceDone else AnnounceNext)
               else if k.main.todo == [] then ResetDone else ResetNext;
      assert Enabled(settings, k, a);
    }
  }
}
