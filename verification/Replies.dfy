/** What an arriving order is answered, by whom and where: the rejections and their addresses. */
module Replies {
  import opened Models
  import opened OrderLists
  import opened StoreModel
  import opened KitchenModel
  import opened KitchenInvariants
  import opened KitchenProofs
  import opened RestaurantSystem
  import opened Runs
  import opened Safety
  import Topics
  import H = HeapKitchen

  /** What is handed over is one rejection, for this reason, about this table, addressed to the
      author of the command and naming the order it answers. */
  predicate Refuses(out: seq<H.Message>, cmd: OrderPlaced, reason: RejectionReason, about: TableId) {
    && |out| == 1 && out[0].RejectionMessage?
    && out[0].rejection.clientId == Some(cmd.clientId)
    && out[0].rejection.clientOrderId == Some(cmd.clientOrderId)
    && out[0].rejection.tableId == Some(about)
    && out[0].rejection.reason == reason
    && H.TopicOf(out[0]) == Some("restaurant/client/" + cmd.clientId + "/err") && !H.Retain(out[0])
  }

  /** It is one snapshot of the table, with the order last in it, cooking. */
  predicate Confirms(out: seq<H.Message>, k: Kitchen, cmd: OrderPlaced) {
    && |out| == 1 && out[0].TableMessage?
    && out[0].state.tableId == cmd.tableId && out[0].state.epoch == k.store.epoch && out[0].state.updatedAt == k.now
    && H.TopicOf(out[0]) == Some("restaurant/table/" + Topics.Decimal(cmd.tableId) + "/state") && H.Retain(out[0])
    && out[0].state.orders != [] && Newest(out[0].state.orders[|out[0].state.orders| - 1], k, cmd)
  }

  predicate Newest(o: Order, k: Kitchen, cmd: OrderPlaced) {
    o.orderId == k.nextOrder && o.foodName == cmd.foodName && o.status == Cooking && o.placedAt == k.now
  }

  /** Every verdict on an arriving order, in the order the checks are made, and what is handed
      over with it. A key among the last N accepted is met with silence. */
  ghost predicate RepliesRightly(settings: Settings, k: Kitchen, topicTable: TableId, cmd: OrderPlaced,
                                 out: seq<H.Message>)
  {
    if cmd.tableId != topicTable then Refuses(out, cmd, ValidationFailed, topicTable)
    else if cmd.tableId !in settings.tables then Refuses(out, cmd, UnknownTable, cmd.tableId)
    else if Recent(k.keys, cmd.clientOrderId, settings.dedupeCacheSize) then out == []
    else if TotalCooking(k.store) >= settings.maxOrdersGlobal then Refuses(out, cmd, KitchenAtCapacity, cmd.tableId)
    else if CookingCount(k.store, cmd.tableId) >= settings.maxOrdersPerTable then
      Refuses(out, cmd, TableAtCapacity, cmd.tableId)
    else Confirms(out, k, cmd)
  }

  lemma {:induction false} DropKeepsLast(orders: seq<Order>, o: Order, n: nat)
    requires !IsFinished(o)
    ensures var r := DropFinished(orders + [o], n); r != [] && r[|r| - 1] == o
  {
    if n == 0 || orders == [] {
      assert orders == [] ==> orders + [o] == [o] && [o][1..] == [];
    } else {
      assert (orders + [o])[1..] == orders[1..] + [o];
      DropKeepsLast(orders[1..], o, if IsFinished(orders[0]) then n - 1 else n);
    }
  }

  lemma AddressedRight(t: TableId, clientId: string)
    ensures Topics.ClientErrorTopic(clientId) == "restaurant/client/" + clientId + "/err"
    ensures Topics.TableStateTopic(t) == "restaurant/table/" + Topics.Decimal(t) + "/state"
  {
    hide *;
    Topics.Spelled(t, clientId);
  }

  lemma RefusalReplies(settings: Settings, k: Kitchen, a: Action)
    requires a.Receive? && Enabled(settings, k, a)
    requires a.cmd.clientOrderId in k.store.seen <==> Recent(k.keys, a.cmd.clientOrderId, settings.dedupeCacheSize)
    requires k.store.tables.Keys == settings.tables && !Admits(settings, k.store, a.cmd, a.topicTable)
    ensures RepliesRightly(settings, k, a.topicTable, a.cmd, H.Outgoing(settings, k, a))
  {
    hide Recent, TotalCooking, CookingCount, AddOrder, Remember, Topics.ClientErrorTopic, Topics.TableStateTopic;
    AddressedRight(a.cmd.tableId, a.cmd.clientId);
  }

  lemma AcceptReplies(settings: Settings, k: Kitchen, a: Action)
    requires a.Receive? && Enabled(settings, k, a) && Inv(settings, k) && Admits(settings, k.store, a.cmd, a.topicTable)
    ensures Confirms(H.Outgoing(settings, k, a), k, a.cmd)
  {
    hide TotalCooking, CookingCount, Put, Trim, Topics.ClientErrorTopic, Topics.TableStateTopic, Windowed, Capped,
         Punctual, StaffInv, Confirms;
    var order := NewOrder(a.cmd, k.nextOrder, a.delay, k.now);
    var full := k.ledger[a.topicTable];
    assert Accepts(settings, k, a.topicTable, a.cmd, a.delay);
    CommitPlaces(settings, k, a.cmd, a.delay);
    NewestLast(full, order, k.store.maxServedHistory);
    AddressedRight(a.cmd.tableId, a.cmd.clientId);
    AcceptSends(settings, k, a, Trim(full + [order], k.store.maxServedHistory));
  }

  lemma AcceptSends(settings: Settings, k: Kitchen, a: Action, orders: seq<Order>)
    requires a.Receive? && Enabled(settings, k, a) && Admits(settings, k.store, a.cmd, a.topicTable)
    requires orders != [] && orders[|orders| - 1] == NewOrder(a.cmd, k.nextOrder, a.delay, k.now)
    requires var order := NewOrder(a.cmd, k.nextOrder, a.delay, k.now);
             AddOrder(Remember(k.store, a.cmd.clientOrderId), a.topicTable, order).tables[a.topicTable].orders == orders
    requires Topics.TableStateTopic(a.cmd.tableId) == "restaurant/table/" + Topics.Decimal(a.cmd.tableId) + "/state"
    ensures Confirms(H.Outgoing(settings, k, a), k, a.cmd)
  {
    hide TotalCooking, CookingCount, Put, Trim, Topics.ClientErrorTopic, Topics.TableStateTopic, LastN, Without;
  }

  lemma NewestLast(full: seq<Order>, o: Order, limit: nat)
    requires !IsFinished(o)
    ensures var r := Trim(full + [o], limit); r != [] && r[|r| - 1] == o
  {
    DropKeepsLast(full, o, Excess(full + [o], limit));
  }

  /** In every run, an arriving order is answered as it should be: a refusal goes to its author
      and says why, a duplicate is ignored, an accepted order is shown at its table. */
  lemma RefusedExactly(settings: Settings, states: seq<System>, events: seq<Event>, i: nat)
    requires IsRun(settings, states, events) && i < |events|
    requires events[i].KitchenActs? && events[i].action.Receive?
    ensures var k, a := states[i].kitchen, events[i].action;
            Enabled(settings, k, a) && RepliesRightly(settings, k, a.topicTable, a.cmd, H.Outgoing(settings, k, a))
  {
    hide Inv, Next, Enabled, Recent, Admits, H.Outgoing, RepliesRightly, Confirms;
    KitchenSound(settings, states, events, i);
    assert Step(settings, states[i], events[i], states[i + 1]);
    var k, a := states[i].kitchen, events[i].action;
    SeenIsRecent(settings, k, a.cmd.clientOrderId);
    if Admits(settings, k.store, a.cmd, a.topicTable) {
      AcceptReplies(settings, k, a);
      AdmittedReplies(settings, k, a);
    } else {
      RefusalReplies(settings, k, a);
    }
  }

  lemma AdmittedReplies(settings: Settings, k: Kitchen, a: Action)
    requires a.Receive? && Enabled(settings, k, a) && Admits(settings, k.store, a.cmd, a.topicTable)
    requires a.cmd.clientOrderId in k.store.seen <==> Recent(k.keys, a.cmd.clientOrderId, settings.dedupeCacheSize)
    requires k.store.tables.Keys == settings.tables && Confirms(H.Outgoing(settings, k, a), k, a.cmd)
    ensures RepliesRightly(settings, k, a.topicTable, a.cmd, H.Outgoing(settings, k, a))
  {
    hide Recent, TotalCooking, CookingCount, H.Outgoing, Confirms;
  }

  /** Where everything else goes, and what the broker keeps: the snapshots and the status, which
      a later subscriber is to have, but never a rejection. */
  lemma Addressed(m: H.Message)
    ensures H.Retain(m) <==> !m.RejectionMessage?
    ensures m.TableMessage? ==>
              H.TopicOf(m) == Some("restaurant/table/" + Topics.Decimal(m.state.tableId) + "/state")
    ensures m.StatusMessage? ==> H.TopicOf(m) == Some("restaurant/kitchen/status")
    ensures m.RejectionMessage? ==>
              H.TopicOf(m) == if m.rejection.clientId.None? then None
                              else Some("restaurant/client/" + m.rejection.clientId.value + "/err")
  {
    hide Topics.TableStateTopic, Topics.ClientErrorTopic, Topics.Decimal;
    match m
    case TableMessage(state) => Topics.Spelled(state.tableId, "");
    case RejectionMessage(rejection) =>
      if rejection.clientId.Some? {
        Topics.Spelled(0, rejection.clientId.value);
      }
    case StatusMessage(_) => Topics.Spelled(0, "");
  }
}
