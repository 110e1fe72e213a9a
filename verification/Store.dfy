/** The in-memory store as it is in memory: records and orders mutated in place, snapshots
    copied out. Every method computes what StoreModel says it computes. */
module HeapStore {
  import opened Models
  import opened OrderLists
  import M = StoreModel

  /** One dish. Only its status and its ready time ever change. */
  class OrderCell {
    const orderId: OrderId
    const foodName: string
    var status: OrderStatus
    const placedAt: Millis
    const cookSeconds: nat
    const expectedReadyAt: Millis
    var readyAt: Option<Millis>

    constructor (o: Order)
      ensures Value() == o
    {
      orderId, foodName, status, placedAt := o.orderId, o.foodName, o.status, o.placedAt;
      cookSeconds, expectedReadyAt, readyAt := o.cookSeconds, o.expectedReadyAt, o.readyAt;
    }

    function Value(): Order
      reads this
    {
      Order(orderId, foodName, status, placedAt, cookSeconds, expectedReadyAt, readyAt)
    }
  }

  function Values(cells: seq<OrderCell>): (r: seq<Order>)
    reads cells
    ensures |r| == |cells|
    ensures forall i :: 0 <= i < |cells| ==> r[i] == cells[i].Value()
  {
    if cells == [] then [] else [cells[0].Value()] + Values(cells[1..])
  }

  /** A table snapshot as it is handed out: its own copies of the orders. */
  datatype TableSnapshot = TableSnapshot(
    tableId: TableId, epoch: Epoch, version: nat, updatedAt: Millis, orders: seq<OrderCell>)
  {
    function Value(): TableState
      reads orders
    {
      TableState(tableId, epoch, version, updatedAt, Values(orders))
    }
  }

  class TableRecord {
    const tableId: TableId
    var version: nat
    var orders: seq<OrderCell>

    constructor (tableId: TableId)
      ensures this.tableId == tableId && version == 0 && orders == []
    {
      this.tableId, version, orders := tableId, 0, [];
    }

    /** An insertion-ordered dictionary: no two entries share a cell or a key. */
    ghost predicate Dictionary()
      reads this
    {
      forall i, j :: 0 <= i < j < |orders| ==> orders[i] != orders[j] && orders[i].orderId != orders[j].orderId
    }

    function Value(): M.TableRecord
      reads this, orders
    {
      M.TableRecord(version, Values(orders))
    }

    method IndexOf(id: OrderId) returns (k: nat)
      ensures k <= |orders|
      ensures k < |orders| ==> orders[k].orderId == id
      ensures forall i :: 0 <= i < k ==> orders[i].orderId != id
    {
      k := 0;
      while k < |orders| && orders[k].orderId != id
        invariant k <= |orders|
        invariant forall i :: 0 <= i < k ==> orders[i].orderId != id
      {
        k := k + 1;
      }
    }

    /** Dictionary assignment. */
    method Put(cell: OrderCell)
      requires Dictionary() && cell !in orders
      modifies this`orders
      ensures Dictionary() && Values(orders) == OrderLists.Put(old(Values(orders)), cell.Value())
      ensures forall c :: c in orders ==> c in old(orders) || c == cell
    {
      hide Values, OrderLists.Put;
      var k := IndexOf(cell.orderId);
      PutAt(Values(orders), cell.Value(), k);
      orders := if k < |orders| then orders[k := cell] else orders + [cell];
    }

    method Add(cell: OrderCell, limit: nat)
      requires Dictionary() && cell !in orders
      modifies this
      ensures Dictionary()
      ensures Value() == M.TableRecord(old(version) + 1, Trim(OrderLists.Put(old(Values(orders)), cell.Value()), limit))
      ensures forall c :: c in orders ==> c in old(orders) || c == cell
    {
      hide Values, OrderLists.Put, Trim;
      Put(cell);
      version := version + 1;
      TrimServedHistory(limit);
    }

    /** Move the order at `k` out of cooking, in place. */
    method FinishAt(k: nat, status: OrderStatus, at: Millis)
      requires Dictionary() && k < |orders|
      modifies {orders[k]}
      ensures Values(orders) == Mark(old(Values(orders)), orders[k].orderId, status, at)
    {
      hide Values, Mark;
      MarkAt(Values(orders), k, status, at);
      orders[k].status := status;
      orders[k].readyAt := Some(at);
    }

    method Finish(k: nat, status: OrderStatus, at: Millis, limit: nat)
      requires Dictionary() && k < |orders|
      modifies this, {orders[k]}
      ensures Dictionary()
      ensures var marked := Mark(old(Values(orders)), old(orders[k].orderId), status, at);
              Value() == M.TableRecord(old(version) + 1, Trim(marked, limit))
      ensures forall c :: c in orders ==> c in old(orders)
    {
      hide Values, Mark, Trim;
      FinishAt(k, status, at);
      version := version + 1;
      TrimServedHistory(limit);
    }

    method Clear()
      modifies this
      ensures Dictionary() && orders == [] && Value() == M.TableRecord(0, [])
    {
      orders := [];
      version := 0;
    }

    method FinishedIds() returns (ids: seq<OrderId>)
      ensures ids == Ids(FinishedOrders(Values(orders)))
    {
      ghost var values := Values(orders);
      ids := [];
      var i := 0;
      while i < |orders|
        invariant i <= |orders|
        invariant ids == Ids(FinishedOrders(values[..i]))
      {
        FinishedPrefix(values, i);
        if orders[i].status != Cooking {
          ids := ids + [orders[i].orderId];
        }
        i := i + 1;
      }
      assert values[..i] == values;
    }

    /** Delete the entry for a key, which must be the oldest finished order. */
    method DeleteOldest(id: OrderId)
      requires Dictionary() && FinishedOrders(Values(orders)) != []
      requires id == FinishedOrders(Values(orders))[0].orderId
      modifies this`orders
      ensures Dictionary() && Values(orders) == DropFinished(old(Values(orders)), 1)
      ensures forall c :: c in orders ==> c in old(orders)
    {
      hide FinishedOrders, DropFinished, Values;
      ghost var values := Values(orders);
      var at := IndexOf(id);
      ghost var n := OldestAt(values);
      assert orders[n].orderId == id;
      RemoveOldest(values, at);
      orders := orders[..at] + orders[at + 1..];
      assert Values(orders) == values[..at] + values[at + 1..];
    }

    /** Cap the finished orders: list them all, then delete the oldest one by one. */
    method TrimServedHistory(limit: nat)
      requires Dictionary()
      modifies this`orders
      ensures Dictionary()
      ensures Values(orders) == Trim(old(Values(orders)), limit)
      ensures forall c :: c in orders ==> c in old(orders)
    {
      hide FinishedOrders, DropFinished, Values;
      ghost var values := Values(orders);
      var finished := FinishedIds();
      var excess := if |finished| > limit then |finished| - limit else 0;
      DropNone(values);
      var k := 0;
      while k < excess
        invariant k <= excess
        invariant Dictionary()
        invariant Values(orders) == DropFinished(values, k)
        invariant forall c :: c in orders ==> c in old(orders)
      {
        NextOldest(values, k);
        DeleteOldest(finished[k]);
        k := k + 1;
      }
    }
  }

  function Ids(orders: seq<Order>): (r: seq<OrderId>)
    ensures |r| == |orders|
    ensures forall i :: 0 <= i < |r| ==> r[i] == orders[i].orderId
  {
    if orders == [] then [] else [orders[0].orderId] + Ids(orders[1..])
  }

  lemma IdsAppend(orders: seq<Order>, o: Order)
    ensures Ids(orders + [o]) == Ids(orders) + [o.orderId]
  {
  }

  lemma FinishedPrefix(orders: seq<Order>, i: nat)
    requires i < |orders|
    ensures Ids(FinishedOrders(orders[..i + 1])) ==
            Ids(FinishedOrders(orders[..i])) + (if IsFinished(orders[i]) then [orders[i].orderId] else [])
  {
    assert orders[..i + 1] == orders[..i] + [orders[i]];
    FilterAppend(orders[..i], orders[i]);
    IdsAppend(FinishedOrders(orders[..i]), orders[i]);
  }

  /** Removing the entry at `at` drops the oldest finished order, if that is the order there. */
  lemma {:induction false} RemoveOldest(orders: seq<Order>, at: nat)
    requires DistinctIds(orders) && FinishedOrders(orders) != []
    requires at < |orders| && orders[at].orderId == FinishedOrders(orders)[0].orderId
    ensures orders[..at] + orders[at + 1..] == DropFinished(orders, 1)
  {
    if IsFinished(orders[0]) {
      assert at == 0;
    } else {
      FinishedAreMembers(orders[1..]);
      assert FinishedOrders(orders)[0] in orders[1..];
      assert at != 0;
      RemoveOldest(orders[1..], at - 1);
      assert orders[..at] + orders[at + 1..] == [orders[0]] + (orders[1..][..at - 1] + orders[1..][at..]);
    }
  }

  lemma {:induction false} FinishedAreMembers(orders: seq<Order>)
    ensures forall o :: o in FinishedOrders(orders) ==> o in orders
  {
    if orders == [] {
    } else {
      FinishedAreMembers(orders[1..]);
    }
  }

  lemma {:induction false} PutAt(orders: seq<Order>, o: Order, k: nat)
    requires k <= |orders| && (k < |orders| ==> orders[k].orderId == o.orderId)
    requires forall i :: 0 <= i < k ==> orders[i].orderId != o.orderId
    ensures Put(orders, o) == if k < |orders| then orders[k := o] else orders + [o]
  {
    hide Lookup;
    if k == 0 {
      assert orders != [] ==> orders[0 := o] == [o] + orders[1..];
    } else {
      var rest := orders[1..];
      PutAt(rest, o, k - 1);
      assert k < |orders| ==> [orders[0]] + rest[k - 1 := o] == orders[k := o];
      assert [orders[0]] + (rest + [o]) == orders + [o];
    }
  }

  lemma {:induction false} MarkAt(orders: seq<Order>, k: nat, status: OrderStatus, at: Millis)
    requires DistinctIds(orders) && k < |orders|
    ensures Mark(orders, orders[k].orderId, status, at) == orders[k := Finish(orders[k], status, at)]
  {
    if k == 0 {
    } else {
      MarkAt(orders[1..], k - 1, status, at);
    }
  }

  lemma {:induction false} LookupAt(orders: seq<Order>, id: OrderId, k: nat)
    requires k <= |orders| && (k < |orders| ==> orders[k].orderId == id)
    requires forall i :: 0 <= i < k ==> orders[i].orderId != id
    ensures Lookup(orders, id) == if k < |orders| then Some(orders[k]) else None
  {
    if orders == [] || k == 0 {
    } else {
      LookupAt(orders[1..], id, k - 1);
    }
  }

  lemma NextOldest(orders: seq<Order>, k: nat)
    requires k < |FinishedOrders(orders)|
    ensures FinishedOrders(DropFinished(orders, k)) != []
    ensures FinishedOrders(DropFinished(orders, k))[0] == FinishedOrders(orders)[k]
    ensures DropFinished(DropFinished(orders, k), 1) == DropFinished(orders, k + 1)
  {
    DropFinishedFilters(orders, k);
    DropTwice(orders, k, 1);
  }

  lemma OldestAt(orders: seq<Order>) returns (n: nat)
    requires FinishedOrders(orders) != []
    ensures n < |orders| && orders[n] == FinishedOrders(orders)[0]
  {
    FinishedAreMembers(orders);
    assert FinishedOrders(orders)[0] in FinishedOrders(orders);
    n :| 0 <= n < |orders| && orders[n] == FinishedOrders(orders)[0];
  }

  method CopyAll(cells: seq<OrderCell>) returns (copies: seq<OrderCell>)
    ensures Values(copies) == Values(cells)
    ensures forall c :: c in copies ==> fresh(c)
  {
    hide Values;
    copies := [];
    var i := 0;
    while i < |cells|
      invariant i <= |cells| && |copies| == i
      invariant forall c :: c in copies ==> fresh(c)
      invariant forall j :: 0 <= j < i ==> copies[j].Value() == cells[j].Value()
    {
      var copy := new OrderCell(cells[i].Value());
      copies := copies + [copy];
      i := i + 1;
    }
  }

  lemma SnapshotOrder(s: M.Store, now: Millis)
    ensures var ids := M.SortedIds(s.tables.Keys);
            && |M.AllSnapshots(s, now)| == |ids|
            && forall i :: 0 <= i < |ids| ==>
                 ids[i] in s.tables && M.AllSnapshots(s, now)[i] == M.Snapshot(s, ids[i], now)
  {
    var ids := M.SortedIds(s.tables.Keys);
    assert forall i :: 0 <= i < |ids| ==> ids[i] in ids;
  }

  // --- the store ----------------------------------------------------------------------------

  class InMemoryStore {
    var epoch: Epoch
    var tables: map<TableId, TableRecord>
    var seen: seq<string>
    const dedupeCacheSize: nat
    const maxServedHistory: nat
    ghost var Repr: set<object>  // the table records and the orders in them

    /** Every table has its own record, and every record its own orders. */
    ghost predicate Valid()
      reads this`tables, this`Repr, Repr
    {
      && this !in Repr
      && (forall t :: t in tables ==> tables[t] in Repr && tables[t].tableId == t)
      && (forall t, c :: t in tables && c in tables[t].orders ==> c in Repr)
      && (forall t :: t in tables ==> tables[t].Dictionary())
      && (forall t, u, c :: t in tables && u in tables && c in tables[t].orders && c in tables[u].orders ==> t == u)
    }

    ghost function Records(): map<TableId, M.TableRecord>
      requires Valid()
      reads this`tables, this`Repr, Repr
    {
      map t | t in tables :: tables[t].Value()
    }

    ghost function Model(): M.Store
      requires Valid()
      reads this, Repr
    {
      M.Store(epoch, Records(), seen, dedupeCacheSize, maxServedHistory)
    }

    constructor (tableIds: seq<TableId>, dedupeCacheSize: nat, maxServedHistory: nat, epoch: Epoch)
      ensures Valid() && fresh(Repr)
      ensures Model() == M.Store(epoch, Model().tables, [], dedupeCacheSize, maxServedHistory)
      ensures forall t :: t in Model().tables <==> t in tableIds
      ensures forall t :: t in Model().tables ==> Model().tables[t] == M.TableRecord(0, [])
    {
      this.epoch, this.seen := epoch, [];
      this.dedupeCacheSize, this.maxServedHistory := dedupeCacheSize, maxServedHistory;
      this.tables := map[];
      this.Repr := {};
      new;
      var i := 0;
      while i < |tableIds|
        invariant i <= |tableIds|
        invariant this.epoch == epoch && seen == []
        invariant Valid() && fresh(Repr)
        invariant forall t :: t in tables <==> t in tableIds[..i]
        invariant forall t :: t in tables ==> tables[t].Value() == M.TableRecord(0, [])
      {
        var record := new TableRecord(tableIds[i]);
        tables := tables[tableIds[i] := record];
        Repr := Repr + {record};
        i := i + 1;
      }
      assert tableIds[..i] == tableIds;
    }

    // --- queries ------------------------------------------------------------------------------

    predicate HasTable(t: TableId)
      reads this
    {
      t in tables
    }

    predicate IsDuplicate(key: string)
      reads this
    {
      key in seen
    }

    method CookingCount(t: TableId) returns (n: nat)
      requires Valid()
      ensures n == M.CookingCount(Model(), t)
    {
      n := 0;
      if t in tables {
        var orders := tables[t].orders;
        ghost var values := Values(orders);
        var i := 0;
        while i < |orders|
          invariant i <= |orders|
          invariant n == |CookingOrders(values[..i])|
        {
          assert values[..i + 1] == values[..i] + [values[i]];
          FilterAppend(values[..i], values[i]);
          if orders[i].status == Cooking {
            n := n + 1;
          }
          i := i + 1;
        }
        assert values[..i] == values;
      }
    }

    method TotalCookingCount() returns (n: nat)
      requires Valid()
      ensures n == M.TotalCooking(Model())
    {
      hide M.SortedIds, M.CookingCount, Valid, Model, Values;
      TablesOfModel();
      ghost var model := Model();
      var ids := M.SortedIds(tables.Keys);
      n := 0;
      var i := |ids|;
      while i > 0
        invariant 0 <= i <= |ids|
        invariant n == M.SumCooking(model, ids[i..])
      {
        i := i - 1;
        var c := CookingCount(ids[i]);
        n := n + c;
        assert ids[i..][1..] == ids[i + 1..];
      }
    }

    /** Every order is copied, so nothing later can alter what is handed out here. */
    method Snapshot(t: TableId, now: Millis) returns (snap: TableSnapshot)
      requires Valid() && t in tables
      ensures snap.Value() == M.Snapshot(Model(), t, now)
      ensures forall c :: c in snap.orders ==> fresh(c)
    {
      var copies := CopyAll(tables[t].orders);
      snap := TableSnapshot(tables[t].tableId, epoch, tables[t].version, now, copies);
    }

    method AllSnapshots(now: Millis) returns (snaps: seq<TableSnapshot>)
      requires Valid()
      ensures |snaps| == |M.AllSnapshots(Model(), now)|
      ensures forall i :: 0 <= i < |snaps| ==> snaps[i].Value() == M.AllSnapshots(Model(), now)[i]
      ensures forall i, c :: 0 <= i < |snaps| && c in snaps[i].orders ==> fresh(c)
    {
      hide M.SortedIds, M.Snapshot, M.SnapshotsOf, M.AllSnapshots, Valid, Model, Values, Records;
      TablesOfModel();
      SnapshotOrder(Model(), now);
      ghost var all := M.AllSnapshots(Model(), now);
      var ids := M.SortedIds(tables.Keys);
      snaps := [];
      var i := 0;
      while i < |ids|
        invariant i <= |ids| && |snaps| == i
        invariant forall j, c :: 0 <= j < i && c in snaps[j].orders ==> fresh(c)
        invariant forall j :: 0 <= j < i ==> snaps[j].Value() == all[j]
      {
        assert ids[i] in ids;
        var snap := Snapshot(ids[i], now);
        snaps := snaps + [snap];
        i := i + 1;
      }
    }

    lemma TablesOfModel()
      requires Valid()
      ensures Model().tables.Keys == tables.Keys
    {
    }

    lemma ModelEpoch()
      requires Valid()
      ensures Model().epoch == epoch
    {
    }

    lemma RecordOf(t: TableId)
      requires Valid()
      ensures t in tables <==> t in Model().tables
      ensures t in tables ==> Model().tables[t] == tables[t].Value()
      ensures this !in Repr
    {
    }

    // --- mutations ----------------------------------------------------------------------------

    /** Assign, move to the end, then evict from the front while over the limit. */
    method RememberClientOrder(key: string)
      requires Valid()
      modifies this`seen
      ensures Valid() && Model() == M.Remember(old(Model()), key)
    {
      hide Valid, Records, Values, M.Without;
      RecordOf(0);
      seen := M.Without(seen, key) + [key];
      ghost var all := seen;
      while |seen| > dedupeCacheSize
        invariant LastN(seen, dedupeCacheSize) == LastN(all, dedupeCacheSize)
      {
        seen := seen[1..];
      }
    }

    /** Only table `t`'s record has changed, and what is new in it nobody else holds. */
    twostate lemma OneRecordChanged(t: TableId)
      requires old(Valid()) && tables == old(tables) && t in tables
      requires old(Repr) <= Repr && this !in Repr
      requires tables[t].Dictionary()
      requires forall c :: c in tables[t].orders ==> c in Repr && (c in old(tables[t].orders) || c !in old(Repr))
      requires forall u :: u in tables && u != t ==>
                 tables[u].orders == old(tables[u].orders) && tables[u].Value() == old(tables[u].Value())
      ensures Valid()
      ensures Records() == old(Records())[t := tables[t].Value()]
    {
      hide Values;
      assert forall u :: u in tables && u != t ==> old(tables[u].Dictionary()) && tables[u].Dictionary();
      var was, now := old(Records()), Records();
      var next := was[t := tables[t].Value()];
      assert now.Keys == next.Keys;
      forall u | u in now ensures now[u] == next[u] {
        assert now[u] == tables[u].Value();
      }
      assert now == next;
    }

    /** Back to empty tables at version 0, under a new generation, with no key remembered. */
    method Reset(epoch: Epoch)
      requires Valid()
      modifies this, Repr
      ensures Valid() && Repr == old(Repr) && tables == old(tables)
      ensures Model() == M.Reset(old(Model()), epoch)
    {
      hide Values;
      ClearRecords();
      this.epoch := epoch;
      seen := [];
    }

    method ClearRecords()
      requires Valid()
      modifies Repr
      ensures Valid() && Records() == map t | t in old(Records()) :: M.TableRecord(0, [])
    {
      hide M.SortedIds, Values;
      var ids := M.SortedIds(tables.Keys);
      var i := 0;
      while i < |ids|
        invariant i <= |ids|
        invariant Valid()
        invariant forall j :: 0 <= j < i ==> ids[j] in tables && tables[ids[j]].Value() == M.TableRecord(0, [])
      {
        assert ids[i] in ids;
        tables[ids[i]].Clear();
        i := i + 1;
      }
    }

    method AddOrder(t: TableId, cell: OrderCell, now: Millis) returns (snap: TableSnapshot)
      requires Valid() && t in tables && cell !in Repr
      modifies this`Repr, Repr
      ensures Valid() && Repr == old(Repr) + {cell} && tables == old(tables) && cell.Value() == old(cell.Value())
      ensures Model() == M.AddOrder(old(Model()), t, cell.Value())
      ensures snap.Value() == M.Snapshot(Model(), t, now)
      ensures forall c :: c in snap.orders ==> fresh(c)
    {
      hide M.AddOrder, M.Snapshot, Valid, Model, Values;
      AddToRecord(t, cell);
      snap := Snapshot(t, now);
    }

    method AddToRecord(t: TableId, cell: OrderCell)
      requires Valid() && t in tables && cell !in Repr
      modifies this`Repr, Repr
      ensures Valid() && Repr == old(Repr) + {cell} && tables == old(tables) && cell.Value() == old(cell.Value())
      ensures Model() == M.AddOrder(old(Model()), t, cell.Value())
    {
      hide Valid, Values, OrderLists.Put, Trim;
      RecordOf(t);
      InsertCell(t, cell);
    }

    method InsertCell(t: TableId, cell: OrderCell)
      requires Valid() && t in tables && cell !in Repr
      modifies this`Repr, Repr
      ensures Valid() && Repr == old(Repr) + {cell} && tables == old(tables) && cell.Value() == old(cell.Value())
      ensures var r := old(tables[t].Value());
              Records() == old(Records())[t :=
                M.TableRecord(r.version + 1, Trim(OrderLists.Put(r.orders, cell.Value()), maxServedHistory))]
    {
      hide Values, OrderLists.Put, Trim;
      tables[t].Add(cell, maxServedHistory);
      Repr := Repr + {cell};
      OneRecordChanged(t);
    }

    /** Finish an order that is cooking, in place; None, and no change, if there is none such. */
    method FinishOrder(t: TableId, id: OrderId, status: OrderStatus, at: Millis) returns (snap: Option<TableSnapshot>)
      requires Valid()
      modifies Repr
      ensures Valid() && tables == old(tables) && Repr == old(Repr)
      ensures var after := M.FinishOrder(old(Model()), t, id, status, at);
              && (snap.Some? <==> after.Some?)
              && Model() == (if after.Some? then after.value else old(Model()))
      ensures snap.Some? ==> t in Model().tables && snap.value.Value() == M.Snapshot(Model(), t, at)
      ensures snap.Some? ==> forall c :: c in snap.value.orders ==> fresh(c)
    {
      hide M.FinishOrder, M.Snapshot, Valid, Model, Values;
      RecordOf(t);
      var done := FinishInRecord(t, id, status, at);
      if done {
        var copy := Snapshot(t, at);
        snap := Some(copy);
      } else {
        snap := None;
      }
    }

    method FinishInRecord(t: TableId, id: OrderId, status: OrderStatus, at: Millis) returns (done: bool)
      requires Valid()
      modifies Repr
      ensures Valid() && tables == old(tables) && Repr == old(Repr) && (done ==> t in tables && t in Model().tables)
      ensures var after := M.FinishOrder(old(Model()), t, id, status, at);
              && (done <==> after.Some?)
              && Model() == (if done then after.value else old(Model()))
    {
      hide Valid, Values, Lookup, Mark, Trim;
      RecordOf(t);
      if t !in tables {
        return false;
      }
      var k := tables[t].IndexOf(id);
      LookupAt(Values(tables[t].orders), id, k);
      if k == |tables[t].orders| || tables[t].orders[k].status != Cooking {
        return false;
      }
      FinishCell(t, k, status, at);
      done := true;
    }

    method FinishCell(t: TableId, k: nat, status: OrderStatus, at: Millis)
      requires Valid() && t in tables && k < |tables[t].orders|
      modifies Repr
      ensures Valid() && tables == old(tables)
      ensures var r := old(tables[t].Value());
              Records() == old(Records())[t :=
                M.TableRecord(r.version + 1, Trim(Mark(r.orders, r.orders[k].orderId, status, at), maxServedHistory))]
    {
      hide Values, Mark, Trim;
      ghost var cell := tables[t].orders[k];
      tables[t].Finish(k, status, at, maxServedHistory);
      forall u | u in tables && u != t
        ensures tables[u].orders == old(tables[u].orders) && tables[u].Value() == old(tables[u].Value())
      {
        assert cell !in tables[u].orders;
      }
      OneRecordChanged(t);
    }
  }

  // --- snapshots outlive whatever happens next ------------------------------------------------

  datatype Operation =
    | Add(tableId: TableId, order: Order, now: Millis)
    | FinishDish(tableId: TableId, orderId: OrderId, status: OrderStatus, at: Millis)
    | RememberKey(key: string)
    | StartOver(epoch: Epoch)

  function Applied(s: M.Store, op: Operation): M.Store {
    match op
    case Add(t, o, _) => if t in s.tables then M.AddOrder(s, t, o) else s
    case FinishDish(t, id, status, at) =>
      (match M.FinishOrder(s, t, id, status, at)
       case None => s
       case Some(after) => after)
    case RememberKey(key) => M.Remember(s, key)
    case StartOver(epoch) => M.Reset(s, epoch)
  }

  function AppliedAll(s: M.Store, ops: seq<Operation>): M.Store
    decreases |ops|
  {
    if ops == [] then s else AppliedAll(Applied(s, ops[0]), ops[1..])
  }

  /** The snapshot shares no order with the store. */
  ghost predicate Apart(store: InMemoryStore, snap: TableSnapshot)
    reads store
  {
    forall c :: c in snap.orders ==> c !in store.Repr && c != store as object
  }

  method Apply(store: InMemoryStore, op: Operation)
    requires store.Valid()
    modifies store, store.Repr
    ensures store.Valid() && fresh(store.Repr - old(store.Repr))
    ensures store.Model() == Applied(old(store.Model()), op)
  {
    hide M.AddOrder, M.FinishOrder, M.Remember, M.Reset, M.Snapshot, Values;
    match op {
      case Add(t, o, now) =>
        store.RecordOf(t);
        if store.HasTable(t) {
          var cell := new OrderCell(o);
          var _ := store.AddOrder(t, cell, now);
        }
      case FinishDish(t, id, status, at) =>
        var _ := store.FinishOrder(t, id, status, at);
      case RememberKey(key) => store.RememberClientOrder(key);
      case StartOver(epoch) => store.Reset(epoch);
    }
  }

  method ApplyAll(store: InMemoryStore, ops: seq<Operation>, ghost snap: TableSnapshot)
    requires store.Valid() && Apart(store, snap)
    modifies store, store.Repr
    ensures store.Valid() && Apart(store, snap)
    ensures store.Model() == AppliedAll(old(store.Model()), ops)
    ensures snap.Value() == old(snap.Value())
  {
    hide Applied, Values;
    var i := 0;
    while i < |ops|
      invariant i <= |ops|
      invariant store.Valid() && fresh(store.Repr - old(store.Repr)) && Apart(store, snap)
      invariant AppliedAll(store.Model(), ops[i..]) == AppliedAll(old(store.Model()), ops)
      invariant snap.Value() == old(snap.Value())
    {
      assert ops[i..][1..] == ops[i + 1..];
      Apply(store, ops[i]);
      i := i + 1;
    }
  }

  /** Whatever run of operations follows, a snapshot goes on showing the store it was taken of. */
  method HandOut(store: InMemoryStore, t: TableId, now: Millis, ops: seq<Operation>) returns (snap: TableSnapshot)
    requires store.Valid() && t in store.tables
    modifies store, store.Repr
    ensures store.Valid()
    ensures store.Model() == AppliedAll(old(store.Model()), ops)
    ensures t in old(store.Model()).tables && snap.Value() == M.Snapshot(old(store.Model()), t, now)
  {
    hide M.Snapshot, Applied, AppliedAll, Values;
    snap := store.Snapshot(t, now);
    ApplyAll(store, ops, snap);
  }
}
