/** What one delivery does to a browser window, and what the broker's slots say. */
module Convergence {
  import opened Models
  import opened Reducer
  import opened Replication

  /** Everything sent has arrived and been shown to the window. */
  predicate Drained(w: Wire, c: int) {
    && Listening(w, c)
    && w.pipe == []
    && w.clients[c].cursor == |w.log|
  }

  /** The snapshot a link action gives a window, if any. */
  function Given(w: Wire, a: LinkAction, c: int): Option<TableState>
    requires LinkEnabled(w, a)
  {
    match a
    case Retained(d, t) => if d == c then Some(w.log[w.clients[d].owed[t]]) else None
    case Deliver(d) => if d == c then Some(w.log[w.clients[d].cursor]) else None
    case _ => None
  }

  /** A window's view is changed by what it is given, and by nothing else. */
  lemma ViewAfter(w: Wire, a: LinkAction, c: int)
    requires LinkEnabled(w, a) && c in NextLink(w, a).clients
    ensures NextLink(w, a).clients[c].view ==
            if c !in w.clients then map[]
            else if Given(w, a, c).Some? then ApplyTableState(w.clients[c].view, Given(w, a, c).value)
            else w.clients[c].view
    ensures Given(w, a, c).Some? ==> c in w.clients
  {
    hide Slots;
  }

  // --- folding against a source ---------------------------------------------------------------

  /** Whoever is given a current snapshot shows a current one. */
  lemma GivenIsShown(src: Source, view: TableMap, m: TableState)
    requires Current(src, m)
    requires m.tableId in view ==> view[m.tableId].tableId == m.tableId && NotAhead(src, view[m.tableId])
    ensures Current(src, ApplyTableState(view, m)[m.tableId])
  {
  }

  /** And goes on showing it, unless given one of an earlier generation. */
  lemma ShownStays(src: Source, view: TableMap, m: TableState, t: TableId)
    requires t in view && view[t].tableId == t && Current(src, view[t])
    requires m.tableId == t ==> NotAhead(src, m) && view[t].epoch <= m.epoch
    ensures t in ApplyTableState(view, m) && Current(src, ApplyTableState(view, m)[t])
  {
  }

  // --- going back -----------------------------------------------------------------------------

  /** `a` is shown no later than `b`: an earlier generation, or no greater a version in it. */
  predicate NoNewer(a: TableState, b: TableState) {
    a.epoch < b.epoch || (a.epoch == b.epoch && a.version <= b.version)
  }

  ghost predicate NeverBack(view: TableMap, view': TableMap) {
    forall t :: t in view ==> t in view' && NoNewer(view[t], view'[t])
  }

  /** Folding a snapshot takes a view back exactly when it belongs to an earlier generation. */
  lemma BackExactly(view: TableMap, m: TableState)
    ensures NeverBack(view, ApplyTableState(view, m)) <==>
            (m.tableId in view ==> view[m.tableId].epoch <= m.epoch)
  {
    var view' := ApplyTableState(view, m);
    if m.tableId in view && m.epoch < view[m.tableId].epoch {
      assert !NoNewer(view[m.tableId], view'[m.tableId]);
    }
  }

  /** What the window shows is among what it has reached in the log. */
  ghost predicate Reached(log: seq<TableState>, c: Client) {
    c.cursor <= |log| && forall t :: t in c.view ==> c.view[t] in log[..c.cursor]
  }

  lemma ReachedGrows(log: seq<TableState>, log': seq<TableState>, client: Client)
    requires Reached(log, client) && log <= log'
    ensures Reached(log', client)
  {
    assert log'[..client.cursor] == log[..client.cursor];
  }

  lemma ReachedApplies(log: seq<TableState>, client: Client, r: nat, cursor: nat)
    requires Reached(log, client) && client.cursor <= cursor <= |log| && r < cursor
    ensures forall t :: t in ApplyTableState(client.view, log[r]) ==>
              ApplyTableState(client.view, log[r])[t] in log[..cursor]
  {
    assert log[..cursor][r] == log[r];
    assert log[..client.cursor] == log[..cursor][..client.cursor];
  }

  /** Without redelivery a window stays within what it has reached. */
  lemma ReachedStays(w: Wire, a: LinkAction, c: int)
    requires Windows(w) && LinkEnabled(w, a) && c in w.clients && Reached(w.log, w.clients[c])
    requires !(a.Redeliver? && a.client == c)
    ensures c in NextLink(w, a).clients && Reached(NextLink(w, a).log, NextLink(w, a).clients[c])
  {
    hide LastIndex, Slots;
    var client := w.clients[c];
    assert ClientSound(w.log, client);
    if a.Deliver? && a.client == c {
      ReachedApplies(w.log, client, client.cursor, client.cursor + 1);
    } else if a.Retained? && a.client == c {
      assert LastIndex(w.log[..client.since], a.tableId) == Some(client.owed[a.tableId]);
      ReachedApplies(w.log, client, client.owed[a.tableId], client.cursor);
    } else if a.Subscribe? && a.client == c {
      assert w.log[..client.cursor] <= w.log && w.log[..|w.log|] == w.log;
    } else if a.Arrive? {
      ReachedGrows(w.log, NextLink(w, a).log, client);
    }
  }

  // --- the broker's slots ---------------------------------------------------------------------

  /** The broker's slot for a table is up to date exactly when the table's last publish was
      not overtaken by a change while it waited in an announce. */
  lemma SlotExactly(src: Source, w: Wire, t: TableId)
    requires ReplicationInv(src, w)
    requires w.intact && src.todo == [] && w.pipe == [] && t in src.tables
    ensures SlotCurrent(src, w.log, t) <==> t !in w.lagging
  {
    assert Stream(w) == w.log;
    assert !Mentions(src.todo, t);
  }
}
