/** Table snapshots as JSON values: how the kitchen writes them and how a browser reads them.

    Printing an instant and printing a drawn identifier are parameters. */
module WireFormat {
  import opened Models

  datatype Json =
    | Null
    | Bool(flag: bool)
    | Number(number: real)
    | Text(text: string)
    | List(items: seq<Json>)
    | Object(fields: map<string, Json>)

  datatype Printer = Printer(stamp: Millis -> string, name: nat -> string)

  // --- writing --------------------------------------------------------------------------------

  function StatusName(s: OrderStatus): string {
    match s
    case Cooking => "COOKING"
    case Served => "SERVED"
    case Failed => "FAILED"
  }

  function EncodeOrder(p: Printer, o: Order): Json {
    Object(map[
      "orderId" := Text(p.name(o.orderId)),
      "foodName" := Text(o.foodName),
      "status" := Text(StatusName(o.status)),
      "placedAt" := Text(p.stamp(o.placedAt)),
      "cookSeconds" := Number(o.cookSeconds as real),
      "expectedReadyAt" := Text(p.stamp(o.expectedReadyAt)),
      "readyAt" := if o.readyAt.Some? then Text(p.stamp(o.readyAt.value)) else Null])
  }

  function EncodeTableState(p: Printer, t: TableState): Json {
    Object(map[
      "tableId" := Number(t.tableId as real),
      "epoch" := Text(p.name(t.epoch)),
      "version" := Number(t.version as real),
      "updatedAt" := Text(p.stamp(t.updatedAt)),
      "orders" := List(seq(|t.orders|, i requires 0 <= i < |t.orders| => EncodeOrder(p, t.orders[i])))])
  }

  // --- reading --------------------------------------------------------------------------------

  /** What a browser holds of an order and of a table. */
  datatype ShownOrder = ShownOrder(
    orderId: string, foodName: string, status: OrderStatus, placedAt: string,
    cookSeconds: int, expectedReadyAt: string, readyAt: Option<string>)

  datatype ShownTable = ShownTable(
    tableId: int, epoch: string, version: int, updatedAt: string, orders: seq<ShownOrder>)

  predicate HasText(raw: map<string, Json>, key: string) {
    key in raw && raw[key].Text?
  }

  predicate HasInteger(raw: map<string, Json>, key: string) {
    key in raw && raw[key].Number? && raw[key].number.Floor as real == raw[key].number
  }

  function ParseStatus(s: string): Option<OrderStatus> {
    if s == "COOKING" then Some(Cooking)
    else if s == "SERVED" then Some(Served)
    else if s == "FAILED" then Some(Failed)
    else None
  }

  function ParseOrder(raw: Json): Option<ShownOrder> {
    if !raw.Object? then None
    else
      var f := raw.fields;
      if !HasText(f, "orderId") || f["orderId"].text == "" then None
      else if !HasText(f, "foodName") then None
      else if !HasText(f, "status") then None
      else if ParseStatus(f["status"].text).None? then None
      else if !HasText(f, "placedAt") then None
      else if !HasInteger(f, "cookSeconds") then None
      else if !HasText(f, "expectedReadyAt") then None
      else if "readyAt" !in f || (!f["readyAt"].Null? && !f["readyAt"].Text?) then None
      else Some(ShownOrder(
        f["orderId"].text, f["foodName"].text, ParseStatus(f["status"].text).value, f["placedAt"].text,
        f["cookSeconds"].number.Floor, f["expectedReadyAt"].text,
        if f["readyAt"].Null? then None else Some(f["readyAt"].text)))
  }

  /** The orders of a snapshot: all of them, or none if one is malformed. */
  function ParseOrders(items: seq<Json>): Option<seq<ShownOrder>> {
    if forall i :: 0 <= i < |items| ==> ParseOrder(items[i]).Some?
    then Some(seq(|items|, i requires 0 <= i < |items| => ParseOrder(items[i]).value))
    else None
  }

  function ParsedTable(raw: Json): Option<ShownTable> {
    if !raw.Object? then None
    else
      var f := raw.fields;
      if !HasInteger(f, "tableId") || !HasText(f, "epoch") || f["epoch"].text == ""
         || !HasInteger(f, "version") || !HasText(f, "updatedAt")
         || "orders" !in f || !f["orders"].List?
      then None
      else
        match ParseOrders(f["orders"].items)
        case None => None
        case Some(orders) =>
          Some(ShownTable(f["tableId"].number.Floor, f["epoch"].text, f["version"].number.Floor,
                          f["updatedAt"].text, orders))
  }

  /** The reader: one malformed order spoils the snapshot. */
  method ParseTableState(raw: Json) returns (r: Option<ShownTable>)
    ensures r == ParsedTable(raw)
  {
    if !raw.Object? {
      return None;
    }
    var f := raw.fields;
    if !HasInteger(f, "tableId") {
      return None;
    }
    if !HasText(f, "epoch") || f["epoch"].text == "" {
      return None;
    }
    if !HasInteger(f, "version") {
      return None;
    }
    if !HasText(f, "updatedAt") {
      return None;
    }
    if "orders" !in f || !f["orders"].List? {
      return None;
    }
    var items := f["orders"].items;
    var parsed := [];
    var i := 0;
    while i < |items|
      invariant 0 <= i <= |items| && |parsed| == i
      invariant forall j :: 0 <= j < i ==> ParseOrder(items[j]) == Some(parsed[j])
    {
      var order := ParseOrder(items[i]);
      if order.None? {
        return None;
      }
      parsed := parsed + [order.value];
      i := i + 1;
    }
    assert parsed == ParseOrders(items).value;
    return Some(ShownTable(f["tableId"].number.Floor, f["epoch"].text, f["version"].number.Floor,
                           f["updatedAt"].text, parsed));
  }

  // --- the two agree --------------------------------------------------------------------------

  /** A snapshot as a browser should hold it. */
  function Shown(p: Printer, o: Order): ShownOrder {
    ShownOrder(p.name(o.orderId), o.foodName, o.status, p.stamp(o.placedAt), o.cookSeconds, p.stamp(o.expectedReadyAt),
               if o.readyAt.Some? then Some(p.stamp(o.readyAt.value)) else None)
  }

  function ShownState(p: Printer, t: TableState): ShownTable {
    ShownTable(t.tableId, p.name(t.epoch), t.version, p.stamp(t.updatedAt),
               seq(|t.orders|, i requires 0 <= i < |t.orders| => Shown(p, t.orders[i])))
  }

  /** Identifiers are never printed as nothing. */
  ghost predicate Names(p: Printer) {
    forall n :: p.name(n) != ""
  }

  /** Printing tells any two instants and any two identifiers apart. */
  ghost predicate Faithful(p: Printer) {
    && (forall m, n :: p.name(m) == p.name(n) ==> m == n)
    && (forall u, v :: p.stamp(u) == p.stamp(v) ==> u == v)
  }

  lemma OrderRoundTrip(p: Printer, o: Order)
    requires Names(p)
    ensures ParseOrder(EncodeOrder(p, o)) == Some(Shown(p, o))
  {
    assert (o.cookSeconds as real).Floor == o.cookSeconds;
  }

  /** Every snapshot, whatever its orders, is accepted and read back field for field. */
  lemma RoundTrip(p: Printer, t: TableState)
    requires Names(p)
    ensures ParsedTable(EncodeTableState(p, t)) == Some(ShownState(p, t))
  {
    var items := EncodeTableState(p, t).fields["orders"].items;
    forall i | 0 <= i < |items| ensures ParseOrder(items[i]) == Some(Shown(p, t.orders[i])) {
      OrderRoundTrip(p, t.orders[i]);
    }
    assert ParseOrders(items).value == ShownState(p, t).orders;
  }

  /** Nothing is lost on the way: what was read tells which snapshot was written. */
  lemma NothingLost(p: Printer, a: TableState, b: TableState)
    requires Names(p) && Faithful(p)
    requires ParsedTable(EncodeTableState(p, a)) == ParsedTable(EncodeTableState(p, b))
    ensures a == b
  {
    hide ParsedTable, EncodeTableState;
    RoundTrip(p, a);
    RoundTrip(p, b);
    var x, y := ShownState(p, a), ShownState(p, b);
    assert |a.orders| == |x.orders| == |y.orders| == |b.orders|;
    forall i | 0 <= i < |a.orders| ensures a.orders[i] == b.orders[i] {
      assert x.orders[i] == Shown(p, a.orders[i]) && y.orders[i] == Shown(p, b.orders[i]);
      ShownTellsApart(p, a.orders[i], b.orders[i]);
    }
  }

  lemma ShownTellsApart(p: Printer, a: Order, b: Order)
    requires Faithful(p) && Shown(p, a) == Shown(p, b)
    ensures a == b
  {
    var x, y := Shown(p, a), Shown(p, b);
    assert p.name(a.orderId) == x.orderId == y.orderId == p.name(b.orderId);
    assert a.readyAt.Some? <==> b.readyAt.Some?;
    if a.readyAt.Some? {
      assert p.stamp(a.readyAt.value) == x.readyAt.value == y.readyAt.value == p.stamp(b.readyAt.value);
      assert a.readyAt.value == b.readyAt.value;
    }
    assert a.readyAt == b.readyAt;
    assert p.stamp(a.placedAt) == p.stamp(b.placedAt) && p.stamp(a.expectedReadyAt) == p.stamp(b.expectedReadyAt);
  }

  // --- the words on the wire ------------------------------------------------------------------

  /** The three words a status is written with, and no other is read. */
  lemma StatusWords(s: string, status: OrderStatus)
    ensures ParseStatus(s) == Some(status) <==> s == StatusName(status)
    ensures StatusName(Cooking) == "COOKING" && StatusName(Served) == "SERVED" && StatusName(Failed) == "FAILED"
  {
    var words := ["COOKING", "SERVED", "FAILED"];
    assert words[0][0] == 'C' && words[1][0] == 'S' && words[2][0] == 'F';
  }

  /** A table on the wire, field for field. */
  lemma TableOnTheWire(p: Printer, t: TableState)
    ensures var raw := EncodeTableState(p, t);
            && raw.Object?
            && raw.fields.Keys == {"tableId", "epoch", "version", "updatedAt", "orders"}
            && raw.fields["tableId"] == Number(t.tableId as real)
            && raw.fields["epoch"] == Text(p.name(t.epoch))
            && raw.fields["version"] == Number(t.version as real)
            && raw.fields["updatedAt"] == Text(p.stamp(t.updatedAt))
            && raw.fields["orders"].List? && |raw.fields["orders"].items| == |t.orders|
            && forall i :: 0 <= i < |t.orders| ==> OrderOnTheWire(p, raw.fields["orders"].items[i], t.orders[i])
  {
    hide EncodeOrder, OrderOnTheWire;
    forall i | 0 <= i < |t.orders| ensures OrderOnTheWire(p, EncodeOrder(p, t.orders[i]), t.orders[i]) {
      OrderSpelled(p, t.orders[i]);
    }
  }

  lemma OrderSpelled(p: Printer, o: Order)
    ensures OrderOnTheWire(p, EncodeOrder(p, o), o)
  {
  }

  /** And an order. */
  ghost predicate OrderOnTheWire(p: Printer, raw: Json, o: Order) {
    && raw.Object?
    && raw.fields.Keys == {"orderId", "foodName", "status", "placedAt", "cookSeconds", "expectedReadyAt", "readyAt"}
    && raw.fields["orderId"] == Text(p.name(o.orderId))
    && raw.fields["foodName"] == Text(o.foodName)
    && raw.fields["status"]
       == Text(if o.status.Cooking? then "COOKING" else if o.status.Served? then "SERVED" else "FAILED")
    && raw.fields["placedAt"] == Text(p.stamp(o.placedAt))
    && raw.fields["cookSeconds"] == Number(o.cookSeconds as real)
    && raw.fields["expectedReadyAt"] == Text(p.stamp(o.expectedReadyAt))
    && raw.fields["readyAt"] == match o.readyAt case None => Null case Some(ready) => Text(p.stamp(ready))
  }

  // --- what is accepted -----------------------------------------------------------------------

  /** The JSON a held order and a held table stand for. */
  function OrderJson(o: ShownOrder): Json {
    Object(map[
      "orderId" := Text(o.orderId),
      "foodName" := Text(o.foodName),
      "status" := Text(StatusName(o.status)),
      "placedAt" := Text(o.placedAt),
      "cookSeconds" := Number(o.cookSeconds as real),
      "expectedReadyAt" := Text(o.expectedReadyAt),
      "readyAt" := if o.readyAt.Some? then Text(o.readyAt.value) else Null])
  }

  /** `raw` has every field of `wanted`, with the same value, and possibly more fields. */
  predicate Extends(raw: Json, wanted: Json)
    requires wanted.Object?
  {
    raw.Object? && forall key :: key in wanted.fields ==> key in raw.fields && raw.fields[key] == wanted.fields[key]
  }

  /** The JSON a held table stands for, its orders aside. */
  function HeadJson(t: ShownTable): (r: Json)
    ensures r.Object?
  {
    Object(map[
      "tableId" := Number(t.tableId as real),
      "epoch" := Text(t.epoch),
      "version" := Number(t.version as real),
      "updatedAt" := Text(t.updatedAt)])
  }

  predicate OrderMatches(raw: Json, o: ShownOrder) {
    o.orderId != "" && Extends(raw, OrderJson(o))
  }

  predicate OrdersMatch(items: seq<Json>, orders: seq<ShownOrder>) {
    |items| == |orders| && forall i :: 0 <= i < |items| ==> OrderMatches(items[i], orders[i])
  }

  /** An order is accepted as `o` exactly when it carries `o`'s fields, and whatever else. */
  lemma OrderAcceptedExactly(raw: Json, o: ShownOrder)
    ensures ParseOrder(raw) == Some(o) <==> OrderMatches(raw, o)
  {
    hide OrderMatches;
    OrderMatchesFields(raw, o);
  }

  lemma OrderMatchesFields(raw: Json, o: ShownOrder)
    ensures OrderMatches(raw, o) <==>
            && raw.Object? && o.orderId != ""
            && HasText(raw.fields, "orderId") && raw.fields["orderId"].text == o.orderId
            && HasText(raw.fields, "foodName") && raw.fields["foodName"].text == o.foodName
            && HasText(raw.fields, "status") && raw.fields["status"].text == StatusName(o.status)
            && HasText(raw.fields, "placedAt") && raw.fields["placedAt"].text == o.placedAt
            && HasInteger(raw.fields, "cookSeconds") && raw.fields["cookSeconds"].number.Floor == o.cookSeconds
            && HasText(raw.fields, "expectedReadyAt") && raw.fields["expectedReadyAt"].text == o.expectedReadyAt
            && "readyAt" in raw.fields
            && raw.fields["readyAt"] == if o.readyAt.Some? then Text(o.readyAt.value) else Null
  {
    var wanted := OrderJson(o).fields;
    assert (o.cookSeconds as real).Floor == o.cookSeconds;
    assert "orderId" in wanted && "foodName" in wanted && "status" in wanted && "placedAt" in wanted;
    assert "cookSeconds" in wanted && "expectedReadyAt" in wanted && "readyAt" in wanted;
  }

  lemma OrdersAcceptedExactly(items: seq<Json>, orders: seq<ShownOrder>)
    ensures ParseOrders(items) == Some(orders) <==> OrdersMatch(items, orders)
  {
    forall i | 0 <= i < |items| && i < |orders|
      ensures ParseOrder(items[i]) == Some(orders[i]) <==> OrderMatches(items[i], orders[i])
    {
      OrderAcceptedExactly(items[i], orders[i]);
    }
    hide ParseOrder, OrderMatches;
    if OrdersMatch(items, orders) {
      assert ParseOrders(items).value == orders;
    }
  }

  lemma HeadAcceptedExactly(raw: Json, t: ShownTable)
    requires raw.Object?
    ensures Extends(raw, HeadJson(t)) <==>
            && HasInteger(raw.fields, "tableId") && raw.fields["tableId"].number.Floor == t.tableId
            && HasText(raw.fields, "epoch") && raw.fields["epoch"].text == t.epoch
            && HasInteger(raw.fields, "version") && raw.fields["version"].number.Floor == t.version
            && HasText(raw.fields, "updatedAt") && raw.fields["updatedAt"].text == t.updatedAt
  {
    var wanted := HeadJson(t).fields;
    assert (t.tableId as real).Floor == t.tableId && (t.version as real).Floor == t.version;
    assert "tableId" in wanted && "epoch" in wanted && "version" in wanted && "updatedAt" in wanted;
  }

  /** A snapshot is accepted as `t` exactly when it carries `t`'s fields, and whatever else, and
      every one of its orders does. */
  lemma AcceptedExactly(raw: Json, t: ShownTable)
    ensures ParsedTable(raw) == Some(t) <==>
            && t.epoch != "" && Extends(raw, HeadJson(t))
            && "orders" in raw.fields && raw.fields["orders"].List?
            && OrdersMatch(raw.fields["orders"].items, t.orders)
  {
    hide ParseOrders, OrdersMatch, HeadJson, Extends;
    if raw.Object? {
      HeadAcceptedExactly(raw, t);
      if "orders" in raw.fields && raw.fields["orders"].List? {
        OrdersAcceptedExactly(raw.fields["orders"].items, t.orders);
      }
    } else {
      assert !Extends(raw, HeadJson(t)) by {
        NotExtends(raw, HeadJson(t));
      }
    }
  }

  lemma NotExtends(raw: Json, wanted: Json)
    requires wanted.Object? && !raw.Object?
    ensures !Extends(raw, wanted)
  {
  }
}
