/** Insertion-ordered order lists: finishing one order, and trimming old finished ones. */
module OrderLists {
  import opened Models

  predicate IsFinished(o: Order) {
    o.status != Cooking
  }

  function CookingOrders(orders: seq<Order>): seq<Order> {
    if orders == [] then []
    else if IsFinished(orders[0]) then CookingOrders(orders[1..])
    else [orders[0]] + CookingOrders(orders[1..])
  }

  function FinishedOrders(orders: seq<Order>): seq<Order> {
    if orders == [] then []
    else if IsFinished(orders[0]) then [orders[0]] + FinishedOrders(orders[1..])
    else FinishedOrders(orders[1..])
  }

  /** The order stored under an identifier: the first one carrying it. */
  function Lookup(orders: seq<Order>, id: OrderId): (r: Option<Order>)
    ensures r.Some? ==> r.value in orders && r.value.orderId == id
    ensures r.None? ==> forall o :: o in orders ==> o.orderId != id
  {
    if orders == [] then None
    else if orders[0].orderId == id then Some(orders[0])
    else Lookup(orders[1..], id)
  }

  function Finish(o: Order, status: OrderStatus, at: Millis): Order {
    o.(status := status, readyAt := Some(at))
  }

  /** The list after the order stored under `id` is finished in place. */
  function Mark(orders: seq<Order>, id: OrderId, status: OrderStatus, at: Millis): (r: seq<Order>)
    ensures |r| == |orders|
    ensures forall i :: 0 <= i < |r| ==>
              r[i] == orders[i] || (orders[i].orderId == id && r[i] == Finish(orders[i], status, at))
  {
    if orders == [] then []
    else if orders[0].orderId == id then [Finish(orders[0], status, at)] + orders[1..]
    else [orders[0]] + Mark(orders[1..], id, status, at)
  }

  /** Dictionary assignment: an existing key keeps its place, a new one goes last. */
  function Put(orders: seq<Order>, o: Order): (r: seq<Order>)
    ensures Lookup(orders, o.orderId).None? ==> r == orders + [o]
  {
    if orders == [] then [o]
    else if orders[0].orderId == o.orderId then [o] + orders[1..]
    else [orders[0]] + Put(orders[1..], o)
  }

  /** The list without its `k` oldest finished orders. */
  function DropFinished(orders: seq<Order>, k: nat): seq<Order> {
    if k == 0 || orders == [] then orders
    else if IsFinished(orders[0]) then DropFinished(orders[1..], k - 1)
    else [orders[0]] + DropFinished(orders[1..], k)
  }

  function Excess(orders: seq<Order>, limit: nat): nat {
    var n := |FinishedOrders(orders)|;
    if n > limit then n - limit else 0
  }

  /** The list with its finished orders capped at `limit`, oldest insertion evicted first. */
  function Trim(orders: seq<Order>, limit: nat): seq<Order> {
    DropFinished(orders, Excess(orders, limit))
  }

  /** `a` is `b` with some elements left out. */
  predicate Subsequence(a: seq<Order>, b: seq<Order>) {
    if a == [] then true
    else if b == [] then false
    else if a[0] == b[0] then Subsequence(a[1..], b[1..])
    else Subsequence(a, b[1..])
  }

  function LastN<T>(s: seq<T>, n: nat): seq<T> {
    if |s| <= n then s else s[|s| - n..]
  }

  lemma {:induction false} FilterAppend(a: seq<Order>, o: Order)
    ensures CookingOrders(a + [o]) == if IsFinished(o) then CookingOrders(a) else CookingOrders(a) + [o]
    ensures FinishedOrders(a + [o]) == if IsFinished(o) then FinishedOrders(a) + [o] else FinishedOrders(a)
  {
    if a == [] {
      assert a + [o] == [o];
      assert [o][1..] == [];
    } else {
      assert (a + [o])[1..] == a[1..] + [o];
      FilterAppend(a[1..], o);
    }
  }

  lemma {:induction false} FilterSizes(orders: seq<Order>)
    ensures |CookingOrders(orders)| + |FinishedOrders(orders)| == |orders|
  {
    if orders == [] {
    } else {
      FilterSizes(orders[1..]);
    }
  }

  lemma {:induction false} DropFinishedFilters(orders: seq<Order>, k: nat)
    requires k <= |FinishedOrders(orders)|
    ensures CookingOrders(DropFinished(orders, k)) == CookingOrders(orders)
    ensures FinishedOrders(DropFinished(orders, k)) == FinishedOrders(orders)[k..]
    ensures Subsequence(DropFinished(orders, k), orders)
  {
    if k == 0 || orders == [] {
      SubsequenceReflexive(orders);
    } else if IsFinished(orders[0]) {
      DropFinishedFilters(orders[1..], k - 1);
      SubsequenceWiden(DropFinished(orders[1..], k - 1), orders);
    } else {
      DropFinishedFilters(orders[1..], k);
      var d := DropFinished(orders[1..], k);
      assert ([orders[0]] + d)[1..] == d;
    }
  }

  lemma {:induction false} SubsequenceReflexive(a: seq<Order>)
    ensures Subsequence(a, a)
  {
    if a == [] {
    } else {
      SubsequenceReflexive(a[1..]);
    }
  }

  lemma {:induction false} SubsequenceWiden(a: seq<Order>, b: seq<Order>)
    requires b != [] && Subsequence(a, b[1..])
    ensures Subsequence(a, b)
  {
    if a != [] && a[0] == b[0] {
      SubsequenceTail(a, b[1..]);
    }
  }

  lemma {:induction false} SubsequenceTail(a: seq<Order>, b: seq<Order>)
    requires a != [] && Subsequence(a, b)
    ensures Subsequence(a[1..], b)
  {
    if a[0] == b[0] {
      SubsequenceWiden(a[1..], b);
    } else {
      SubsequenceTail(a, b[1..]);
      SubsequenceWiden(a[1..], b);
    }
  }

  /** What trimming keeps: every order still cooking, exactly the last `limit` finished orders
      by insertion, and their relative order. */
  lemma TrimKeeps(orders: seq<Order>, limit: nat)
    ensures CookingOrders(Trim(orders, limit)) == CookingOrders(orders)
    ensures FinishedOrders(Trim(orders, limit)) == LastN(FinishedOrders(orders), limit)
    ensures Subsequence(Trim(orders, limit), orders)
    ensures |Trim(orders, limit)| + Excess(orders, limit) == |orders|
  {
    DropFinishedFilters(orders, Excess(orders, limit));
    FilterSizes(orders);
    FilterSizes(Trim(orders, limit));
  }

  // --- trimming as we go is trimming once, at the end -----------------------------------

  lemma {:induction false} DropTwice(orders: seq<Order>, j: nat, k: nat)
    ensures DropFinished(DropFinished(orders, j), k) == DropFinished(orders, j + k)
  {
    if j == 0 || orders == [] {
    } else {
      if IsFinished(orders[0]) {
        DropTwice(orders[1..], j - 1, k);
      } else {
        DropTwice(orders[1..], j, k);
        var d := DropFinished(orders[1..], j);
        assert ([orders[0]] + d)[1..] == d;
      }
    }
  }

  lemma {:induction false} DropThenAppend(orders: seq<Order>, o: Order, k: nat)
    requires k <= |FinishedOrders(orders)|
    ensures DropFinished(orders, k) + [o] == DropFinished(orders + [o], k)
  {
    if k == 0 || orders == [] {
    } else {
      assert (orders + [o])[1..] == orders[1..] + [o];
      DropThenAppend(orders[1..], o, if IsFinished(orders[0]) then k - 1 else k);
    }
  }

  /** How many orders each trim evicts when one is appended. */
  lemma AppendExcess(full: seq<Order>, o: Order, limit: nat)
    ensures Excess(full, limit) + Excess(Trim(full, limit) + [o], limit) == Excess(full + [o], limit)
  {
    hide DropFinished, CookingOrders;
    FilterAppend(full, o);
    TrimKeeps(full, limit);
    FilterAppend(Trim(full, limit), o);
  }

  /** Trimming before an insertion loses nothing that trimming after it would keep. */
  lemma TrimAppend(full: seq<Order>, o: Order, limit: nat)
    ensures Trim(Trim(full, limit) + [o], limit) == Trim(full + [o], limit)
  {
    hide DropFinished;
    DropThenAppend(full, o, Excess(full, limit));
    AppendExcess(full, o, limit);
    DropTwice(full + [o], Excess(full, limit), Excess(Trim(full, limit) + [o], limit));
  }

  lemma {:induction false} MarkFilters(orders: seq<Order>, id: OrderId, status: OrderStatus, at: Millis)
    requires Lookup(orders, id).Some? && !IsFinished(Lookup(orders, id).value) && status != Cooking
    ensures |FinishedOrders(Mark(orders, id, status, at))| == |FinishedOrders(orders)| + 1
    ensures |CookingOrders(Mark(orders, id, status, at))| == |CookingOrders(orders)| - 1
  {
    if orders[0].orderId == id {
      var m := Mark(orders, id, status, at);
      assert m[1..] == orders[1..];
    } else {
      MarkFilters(orders[1..], id, status, at);
      var m := Mark(orders, id, status, at);
      assert m[1..] == Mark(orders[1..], id, status, at);
    }
  }

  lemma MarkSteps(o: Order, rest: seq<Order>, id: OrderId, status: OrderStatus, at: Millis)
    ensures Mark([o] + rest, id, status, at) ==
            if o.orderId == id then [Finish(o, status, at)] + rest else [o] + Mark(rest, id, status, at)
  {
    assert ([o] + rest)[1..] == rest;
  }

  lemma DropSteps(o: Order, rest: seq<Order>, k: nat)
    requires k > 0
    ensures DropFinished([o] + rest, k) ==
            if IsFinished(o) then DropFinished(rest, k - 1) else [o] + DropFinished(rest, k)
  {
    assert ([o] + rest)[1..] == rest;
  }

  /** Finishing an order pushes out the oldest finished one, which may be the order itself. */
  lemma {:induction false} DropThenMark(orders: seq<Order>, id: OrderId, status: OrderStatus, at: Millis, k: nat)
    requires Lookup(orders, id).Some? && !IsFinished(Lookup(orders, id).value) && status != Cooking
    ensures DropFinished(Mark(DropFinished(orders, k), id, status, at), 1)
         == DropFinished(Mark(orders, id, status, at), k + 1)
  {
    hide DropFinished, Mark;
    if k == 0 {
      DropNone(orders);
    } else {
      var o, rest := orders[0], orders[1..];
      assert orders == [o] + rest;
      DropDown(o, rest, id, status, at, k);
      if o.orderId != id {
        DropThenMark(rest, id, status, at, if IsFinished(o) then k - 1 else k);
      }
    }
  }

  /** One step of either side of DropThenMark. */
  lemma DropDown(o: Order, rest: seq<Order>, id: OrderId, status: OrderStatus, at: Millis, k: nat)
    requires k > 0 && status != Cooking && (o.orderId == id ==> !IsFinished(o))
    ensures var left := DropFinished(Mark(DropFinished([o] + rest, k), id, status, at), 1);
            var right := DropFinished(Mark([o] + rest, id, status, at), k + 1);
            if o.orderId == id then left == right
            else
              var j := if IsFinished(o) then k - 1 else k;
              var deepLeft := DropFinished(Mark(DropFinished(rest, j), id, status, at), 1);
              var deepRight := DropFinished(Mark(rest, id, status, at), j + 1);
              deepLeft == deepRight ==> left == right
  {
    hide DropFinished, Mark;
    DropSteps(o, rest, k);
    MarkSteps(o, rest, id, status, at);
    var d := DropFinished(rest, k);
    MarkSteps(o, d, id, status, at);
    if o.orderId == id {
      DropSteps(Finish(o, status, at), d, 1);
      DropSteps(Finish(o, status, at), rest, k + 1);
      DropNone(d);
    } else {
      DropSteps(o, Mark(rest, id, status, at), k + 1);
      DropSteps(o, Mark(d, id, status, at), 1);
    }
  }

  lemma {:induction false} DropKeepsCooking(orders: seq<Order>, id: OrderId, k: nat)
    requires Lookup(orders, id).Some? && !IsFinished(Lookup(orders, id).value)
    ensures Lookup(DropFinished(orders, k), id) == Lookup(orders, id)
  {
    if k == 0 {
    } else {
      if IsFinished(orders[0]) {
        DropKeepsCooking(orders[1..], id, k - 1);
      } else {
        var d := DropFinished(orders[1..], k);
        assert ([orders[0]] + d)[1..] == d;
        if orders[0].orderId != id {
          DropKeepsCooking(orders[1..], id, k);
        }
      }
    }
  }

  /** How many orders each trim evicts when an order finishes. */
  lemma MarkExcess(full: seq<Order>, id: OrderId, status: OrderStatus, at: Millis, limit: nat)
    requires Lookup(full, id).Some? && !IsFinished(Lookup(full, id).value) && status != Cooking
    ensures Lookup(Trim(full, limit), id) == Lookup(full, id)
    ensures |FinishedOrders(full)| < limit ==>
              Excess(full, limit) == 0 && Excess(Mark(full, id, status, at), limit) == 0
    ensures |FinishedOrders(full)| >= limit ==>
              && Excess(Mark(full, id, status, at), limit) == Excess(full, limit) + 1
              && Excess(Mark(Trim(full, limit), id, status, at), limit) == 1
  {
    DropKeepsCooking(full, id, Excess(full, limit));
    TrimKeeps(full, limit);
    MarkFilters(full, id, status, at);
    MarkFilters(Trim(full, limit), id, status, at);
  }

  /** Trimming before an order finishes loses nothing that trimming after it would keep. */
  lemma TrimMark(full: seq<Order>, id: OrderId, status: OrderStatus, at: Millis, limit: nat)
    requires Lookup(full, id).Some? && !IsFinished(Lookup(full, id).value) && status != Cooking
    ensures Lookup(Trim(full, limit), id) == Lookup(full, id)
    ensures Trim(Mark(Trim(full, limit), id, status, at), limit) == Trim(Mark(full, id, status, at), limit)
  {
    hide Excess, Mark, DropFinished, FinishedOrders, Lookup;
    MarkExcess(full, id, status, at, limit);
    if |FinishedOrders(full)| < limit {
      DropNone(full);
    } else {
      DropThenMark(full, id, status, at, Excess(full, limit));
    }
  }

  lemma DropNone(orders: seq<Order>)
    ensures DropFinished(orders, 0) == orders
  {
  }

  lemma {:induction false} LookupAppend(orders: seq<Order>, o: Order, id: OrderId)
    ensures Lookup(orders + [o], id) ==
            if Lookup(orders, id).Some? then Lookup(orders, id)
            else if o.orderId == id then Some(o) else None
  {
    if orders == [] {
    } else {
      assert (orders + [o])[1..] == orders[1..] + [o];
      LookupAppend(orders[1..], o, id);
    }
  }

  lemma {:induction false} LookupMark(orders: seq<Order>, id: OrderId, status: OrderStatus, at: Millis, other: OrderId)
    ensures Lookup(Mark(orders, id, status, at), other) ==
            if other == id && Lookup(orders, id).Some?
            then Some(Finish(Lookup(orders, id).value, status, at))
            else Lookup(orders, other)
  {
    if orders == [] {
    } else {
      var m := Mark(orders, id, status, at);
      if orders[0].orderId == id {
        assert m[1..] == orders[1..];
      } else {
        assert m[1..] == Mark(orders[1..], id, status, at);
        LookupMark(orders[1..], id, status, at, other);
      }
    }
  }

  // --- does a finish show? ----------------------------------------------------------------

  ghost predicate DistinctIds(orders: seq<Order>) {
    forall i, j :: 0 <= i < j < |orders| ==> orders[i].orderId != orders[j].orderId
  }

  /** How many finished orders were inserted after the one stored under `id`. */
  function FinishedAfter(orders: seq<Order>, id: OrderId): nat {
    if orders == [] then 0
    else if orders[0].orderId == id then |FinishedOrders(orders[1..])|
    else FinishedAfter(orders[1..], id)
  }

  lemma {:induction false} AfterMark(orders: seq<Order>, id: OrderId, status: OrderStatus, at: Millis)
    ensures FinishedAfter(Mark(orders, id, status, at), id) == FinishedAfter(orders, id)
  {
    if orders == [] {
    } else {
      var o, rest := orders[0], orders[1..];
      assert orders == [o] + rest;
      MarkSteps(o, rest, id, status, at);
      if o.orderId == id {
        assert ([Finish(o, status, at)] + rest)[1..] == rest;
      } else {
        AfterMark(rest, id, status, at);
        var m := Mark(rest, id, status, at);
        assert ([o] + m)[1..] == m;
      }
    }
  }

  /** A finished order outlasts a trim exactly if enough finished orders are kept to reach it. */
  lemma {:induction false} DropShows(orders: seq<Order>, id: OrderId, k: nat)
    requires DistinctIds(orders) && Lookup(orders, id).Some? && IsFinished(Lookup(orders, id).value)
    ensures Lookup(DropFinished(orders, k), id) ==
            if k + FinishedAfter(orders, id) < |FinishedOrders(orders)| then Lookup(orders, id) else None
  {
    var o, rest := orders[0], orders[1..];
    assert orders == [o] + rest;
    if o.orderId == id {
      DropMeansGone(rest, id, if k > 0 then k - 1 else 0);
    } else {
      DropShows(rest, id, if IsFinished(o) && k > 0 then k - 1 else k);
      var d := DropFinished(rest, k);
      assert ([o] + d)[1..] == d;
    }
  }

  lemma {:induction false} DropMeansGone(orders: seq<Order>, id: OrderId, k: nat)
    requires forall o :: o in orders ==> o.orderId != id
    ensures Lookup(DropFinished(orders, k), id) == None
  {
    if k == 0 || orders == [] {
    } else {
      DropMeansGone(orders[1..], id, if IsFinished(orders[0]) then k - 1 else k);
      var d := DropFinished(orders[1..], k);
      assert ([orders[0]] + d)[1..] == d;
    }
  }

  /** The list a finish leaves shows the dish finished exactly if fewer than `limit` finished
      orders were inserted after it; otherwise the dish is evicted by its own finish. */
  lemma FinishShowsExactly(orders: seq<Order>, id: OrderId, status: OrderStatus, at: Millis, limit: nat)
    requires DistinctIds(orders) && status != Cooking
    requires Lookup(orders, id).Some? && !IsFinished(Lookup(orders, id).value)
    ensures Lookup(Trim(Mark(orders, id, status, at), limit), id) ==
            if FinishedAfter(orders, id) < limit then Some(Finish(Lookup(orders, id).value, status, at)) else None
  {
    hide Lookup, DropFinished, FinishedAfter;
    var m := Mark(orders, id, status, at);
    LookupMark(orders, id, status, at, id);
    MarkFilters(orders, id, status, at);
    AfterMark(orders, id, status, at);
    DropShows(m, id, Excess(m, limit));
    AfterWithin(m, id);
  }

  lemma {:induction false} AfterWithin(orders: seq<Order>, id: OrderId)
    requires Lookup(orders, id).Some? && IsFinished(Lookup(orders, id).value)
    ensures FinishedAfter(orders, id) < |FinishedOrders(orders)|
  {
    if orders[0].orderId == id {
    } else {
      AfterWithin(orders[1..], id);
    }
  }

  function Plate(id: OrderId, status: OrderStatus): Order {
    Order(id, "Ramen", status, 0, 0, 0, if status == Cooking then None else Some(0))
  }

  /** A dish still cooking, and `n` dishes ordered after it and served already. */
  function SlowFirst(n: nat): (r: seq<Order>)
    ensures |r| == n + 1 && r[0] == Plate(0, Cooking)
    ensures forall i :: 0 < i <= n ==> r[i] == Plate(i, Served)
  {
    [Plate(0, Cooking)] + seq(n, i requires 0 <= i < n => Plate(i + 1, Served))
  }

  lemma {:induction false} AllFinished(orders: seq<Order>)
    requires forall o :: o in orders ==> IsFinished(o)
    ensures FinishedOrders(orders) == orders
  {
    if orders == [] {
    } else {
      AllFinished(orders[1..]);
    }
  }

  /** Whatever the limit, the default of 10 included, a slow dish can be evicted by its own
      finish: when that many dishes ordered after it have been served before it. */
  lemma OwnEviction(limit: nat, at: Millis)
    ensures var orders := SlowFirst(limit);
            && DistinctIds(orders) && Lookup(orders, 0) == Some(Plate(0, Cooking))
            && Lookup(Trim(Mark(orders, 0, Served, at), limit), 0) == None
  {
    var orders := SlowFirst(limit);
    forall o | o in orders[1..] ensures IsFinished(o) {
      var i :| 0 <= i < limit && orders[1..][i] == o;
      assert orders[i + 1] == Plate(i + 1, Served);
    }
    AllFinished(orders[1..]);
    FinishShowsExactly(orders, 0, Served, at, limit);
  }
}
