/** The in-memory store as a value: what each synchronous store method computes. */
module StoreModel {
  import opened Models
  import opened OrderLists

  datatype TableRecord = TableRecord(version: nat, orders: seq<Order>)

  datatype Store = Store(
    epoch: Epoch,
    tables: map<TableId, TableRecord>,
    seen: seq<string>,
    dedupeCacheSize: nat,
    maxServedHistory: nat)

  // --- queries --------------------------------------------------------------------------

  predicate IsLeast(m: int, s: set<int>) {
    m in s && forall x :: x in s ==> m <= x
  }

  lemma {:induction false} MinExists(s: set<int>)
    requires s != {}
    ensures exists m :: IsLeast(m, s)
  {
    assert (forall e :: e !in s) ==> s == {};
    var e :| e in s;
    if s - {e} == {} {
      assert s == {e};
      assert IsLeast(e, s);
    } else {
      MinExists(s - {e});
      var m :| IsLeast(m, s - {e});
      var least := if e < m then e else m;
      forall x | x in s ensures least <= x {
        assert x == e || x in s - {e};
      }
      assert IsLeast(least, s);
    }
  }

  function SortedIds(s: set<TableId>): (r: seq<TableId>)
    ensures forall x :: x in r <==> x in s
    ensures forall i, j :: 0 <= i < j < |r| ==> r[i] < r[j]
  {
    if s == {} then []
    else
      MinExists(s);
      var m :| IsLeast(m, s);
      [m] + SortedIds(s - {m})
  }

  lemma {:induction false} SortedSize(s: set<TableId>)
    ensures |SortedIds(s)| == |s|
  {
    if s == {} {
    } else {
      var m := SortedIds(s)[0];
      assert m in SortedIds(s);
      SortedSize(s - {m});
    }
  }

  function CookingCount(s: Store, t: TableId): nat {
    if t in s.tables then |CookingOrders(s.tables[t].orders)| else 0
  }

  function SumCooking(s: Store, ids: seq<TableId>): nat {
    if ids == [] then 0 else CookingCount(s, ids[0]) + SumCooking(s, ids[1..])
  }

  function TotalCooking(s: Store): nat {
    SumCooking(s, SortedIds(s.tables.Keys))
  }

  function Snapshot(s: Store, t: TableId, now: Millis): TableState
    requires t in s.tables
  {
    TableState(t, s.epoch, s.tables[t].version, now, s.tables[t].orders)
  }

  function SnapshotsOf(s: Store, ids: seq<TableId>, now: Millis): (r: seq<TableState>)
    requires forall t :: t in ids ==> t in s.tables
    ensures |r| == |ids|
    ensures forall i :: 0 <= i < |r| ==> r[i] == Snapshot(s, ids[i], now)
  {
    if ids == [] then [] else [Snapshot(s, ids[0], now)] + SnapshotsOf(s, ids[1..], now)
  }

  function AllSnapshots(s: Store, now: Millis): (r: seq<TableState>)
  {
    SnapshotsOf(s, SortedIds(s.tables.Keys), now)
  }

  // --- mutations ------------------------------------------------------------------------

  function Without(keys: seq<string>, key: string): (r: seq<string>)
    ensures key !in keys ==> r == keys
    ensures forall k :: k in r <==> k in keys && k != key
  {
    if keys == [] then []
    else if keys[0] == key then Without(keys[1..], key)
    else [keys[0]] + Without(keys[1..], key)
  }

  function Remember(s: Store, key: string): Store {
    s.(seen := LastN(Without(s.seen, key) + [key], s.dedupeCacheSize))
  }

  function Reset(s: Store, epoch: Epoch): Store {
    s.(epoch := epoch, seen := [], tables := map t | t in s.tables :: TableRecord(0, []))
  }

  function AddOrder(s: Store, t: TableId, o: Order): Store
    requires t in s.tables
  {
    var r := s.tables[t];
    s.(tables := s.tables[t := TableRecord(r.version + 1, Trim(Put(r.orders, o), s.maxServedHistory))])
  }

  /** None when there is no such order to finish: unknown table, evicted, or not cooking. */
  function FinishOrder(s: Store, t: TableId, id: OrderId, status: OrderStatus, at: Millis): Option<Store> {
    if t !in s.tables then None
    else
      var r := s.tables[t];
      match Lookup(r.orders, id)
      case None => None
      case Some(o) =>
        if IsFinished(o) then None
        else
          var marked := Mark(r.orders, id, status, at);
          Some(s.(tables := s.tables[t := TableRecord(r.version + 1, Trim(marked, s.maxServedHistory))]))
  }

  // --- the capacity sum -----------------------------------------------------------------

  lemma {:induction false} SumUnchanged(a: Store, b: Store, ids: seq<TableId>)
    requires forall t :: t in ids ==> CookingCount(a, t) == CookingCount(b, t)
    ensures SumCooking(a, ids) == SumCooking(b, ids)
  {
    if ids == [] {
    } else {
      SumUnchanged(a, b, ids[1..]);
    }
  }

  /** Changing one table's count changes the restaurant's total by exactly as much. */
  lemma {:induction false} SumChanged(a: Store, b: Store, ids: seq<TableId>, t: TableId)
    requires t in ids
    requires forall i, j :: 0 <= i < j < |ids| ==> ids[i] < ids[j]
    requires forall u :: u in ids && u != t ==> CookingCount(a, u) == CookingCount(b, u)
    ensures SumCooking(b, ids) - SumCooking(a, ids) == CookingCount(b, t) - CookingCount(a, t)
  {
    if ids[0] == t {
      assert forall u :: u in ids[1..] ==> u != t;
      SumUnchanged(a, b, ids[1..]);
    } else {
      SumChanged(a, b, ids[1..], t);
    }
  }

  lemma TotalChanged(a: Store, b: Store, t: TableId)
    requires a.tables.Keys == b.tables.Keys && t in a.tables
    requires forall u :: u in a.tables && u != t ==> a.tables[u] == b.tables[u]
    ensures TotalCooking(b) - TotalCooking(a) == CookingCount(b, t) - CookingCount(a, t)
  {
    SumChanged(a, b, SortedIds(a.tables.Keys), t);
  }

  lemma {:induction false} SumZero(s: Store, ids: seq<TableId>)
    requires forall t :: t in ids ==> CookingCount(s, t) == 0
    ensures SumCooking(s, ids) == 0
  {
    if ids == [] {
    } else {
      SumZero(s, ids[1..]);
    }
  }

  // --- the dedupe window ----------------------------------------------------------------

  /** No key recurs within `n` further keys. */
  ghost predicate Spaced(keys: seq<string>, n: nat) {
    forall i, j :: 0 <= i < j < |keys| && keys[i] == keys[j] ==> j - i > n
  }

  /** Membership in the last `n` elements, by position. */
  lemma InLastN(keys: seq<string>, key: string, n: nat)
    ensures key in LastN(keys, n) <==> exists i :: 0 <= i < |keys| && |keys| - i <= n && keys[i] == key
  {
    var w := LastN(keys, n);
    var skip := |keys| - |w|;
    if key in w {
      var j :| 0 <= j < |w| && w[j] == key;
      assert keys[j + skip] == key;
    }
    if exists i :: 0 <= i < |keys| && |keys| - i <= n && keys[i] == key {
      var i :| 0 <= i < |keys| && |keys| - i <= n && keys[i] == key;
      assert w[i - skip] == key;
    }
  }

  /** Recording a key that the window does not hold slides the window by one. */
  lemma WindowSlides(keys: seq<string>, key: string, n: nat)
    requires Spaced(keys, n) && key !in LastN(keys, n)
    ensures LastN(LastN(keys, n) + [key], n) == LastN(keys + [key], n)
    ensures Spaced(keys + [key], n)
  {
    var all := keys + [key];
    forall i, j | 0 <= i < j < |all| && all[i] == all[j] ensures j - i > n {
      if j == |keys| {
        InLastN(keys, key, n);
        assert keys[i] == key;
      }
    }
  }
}
