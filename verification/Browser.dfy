/** The browser's stores: what it shows, changed by every message that arrives and by nothing
    else. They survive disconnects. */
module Browser {
  import opened Models
  import opened Reducer

  /** A message as it reaches the browser: `producedAt` is None when its time stamp does not
      parse, `arrivedAt` is the browser's own clock. */
  datatype Incoming = Incoming(state: TableState, retained: bool, producedAt: Option<Millis>, arrivedAt: Millis)

  function States(messages: seq<Incoming>): (r: seq<TableState>)
    ensures |r| == |messages|
    ensures forall i :: 0 <= i < |r| ==> r[i] == messages[i].state
  {
    seq(|messages|, i requires 0 <= i < |messages| => messages[i].state)
  }

  predicate TellsTime(m: Incoming) {
    !m.retained && m.producedAt.Some?
  }

  /** The clock offset after a run of messages: taken from the last live one that tells the time. */
  function OffsetAfter(start: Millis, messages: seq<Incoming>): Millis {
    if messages == [] then start
    else
      var last := messages[|messages| - 1];
      if TellsTime(last) then last.arrivedAt - last.producedAt.value
      else OffsetAfter(start, messages[..|messages| - 1])
  }

  /** So it is the reading of that message, whatever came before it. */
  lemma {:induction false} OffsetIsLast(start: Millis, messages: seq<Incoming>, i: nat)
    requires i < |messages| && TellsTime(messages[i])
    requires forall k :: i < k < |messages| ==> !TellsTime(messages[k])
    ensures OffsetAfter(start, messages) == messages[i].arrivedAt - messages[i].producedAt.value
    decreases |messages|
  {
    var n := |messages| - 1;
    if i == n {
    } else {
      OffsetIsLast(start, messages[..n], i);
    }
  }

  /** And without such a message it stays as it was. */
  lemma {:induction false} OffsetStays(start: Millis, messages: seq<Incoming>)
    requires forall m :: m in messages ==> m.retained || m.producedAt.None?
    ensures OffsetAfter(start, messages) == start
  {
    if messages == [] {
    } else {
      assert messages[|messages| - 1] in messages;
      OffsetStays(start, messages[..|messages| - 1]);
    }
  }

  class Stores {
    var tables: TableMap
    var serverOffsetMs: Millis

    constructor ()
      ensures tables == map[] && serverOffsetMs == 0
    {
      tables, serverOffsetMs := map[], 0;
    }

    method IngestTableState(m: Incoming)
      modifies this
      ensures tables == ApplyTableState(old(tables), m.state)
      ensures serverOffsetMs ==
              if !m.retained && m.producedAt.Some? then m.arrivedAt - m.producedAt.value else old(serverOffsetMs)
    {
      tables := ApplyTableState(tables, m.state);
      if !m.retained {
        if m.producedAt.Some? {
          serverOffsetMs := m.arrivedAt - m.producedAt.value;
        }
      }
    }

    /** One message after another, across however many sessions. */
    method IngestAll(messages: seq<Incoming>)
      modifies this
      ensures tables == Fold(old(tables), States(messages))
      ensures serverOffsetMs == OffsetAfter(old(serverOffsetMs), messages)
    {
      var i := 0;
      while i < |messages|
        invariant 0 <= i <= |messages|
        invariant tables == Fold(old(tables), States(messages[..i]))
        invariant serverOffsetMs == OffsetAfter(old(serverOffsetMs), messages[..i])
      {
        assert messages[..i + 1][..i] == messages[..i];
        assert States(messages[..i + 1])[..i] == States(messages[..i]);
        IngestTableState(messages[i]);
        i := i + 1;
      }
      assert messages[..i] == messages;
    }
  }

  /** What a window opened empty shows of a table: exactly the first highest version of that
      table's last unbroken run of one generation, and nothing of tables never mentioned. */
  method ShowAll(messages: seq<Incoming>) returns (stores: Stores)
    ensures fresh(stores)
    ensures forall t :: t in stores.tables <==> ForTable(States(messages), t) != []
    ensures forall t :: t in stores.tables ==> Survives(ForTable(States(messages), t), stores.tables[t])
  {
    stores := new Stores();
    stores.IngestAll(messages);
    forall t
      ensures t in stores.tables <==> ForTable(States(messages), t) != []
      ensures t in stores.tables ==> Survives(ForTable(States(messages), t), stores.tables[t])
    {
      FoldMeaning(States(messages), t);
    }
  }
}
