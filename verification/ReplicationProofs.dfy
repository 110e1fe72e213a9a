/** The replication invariants survive every source, link, broker and window action. */
module ReplicationProofs {
  import opened Models
  import opened StoreModel
  import opened Reducer
  import opened Replication

  // --- the source acts --------------------------------------------------------------------

  lemma SnapshotsArchive(src: Source, w: Wire, src': Source, todo: seq<TableState>)
    requires Archive(src, w) && Complete(src', todo)
    requires src' == src.(todo := src'.todo) || (src'.epoch > src.epoch && src'.tables.Keys == src.tables.Keys)
    ensures Archive(src', w.(taken := w.taken + Members(todo)))
  {
    forall m | m in w.taken ensures NotAhead(src', m) {
      assert NotAhead(src, m);
    }
    forall a, b | a in w.taken + Members(todo) && b in w.taken + Members(todo) && SameStamp(a, b)
      ensures a.orders == b.orders
    {
      assert a in w.taken ==> NotAhead(src, a) && NotAhead(src', a);
      assert b in w.taken ==> NotAhead(src, b) && NotAhead(src', b);
    }
  }

  lemma BumpArchive(src: Source, w: Wire, t: TableId, record: TableRecord, at: Millis)
    requires Archive(src, w) && Possible(src, Bump(t, record, at))
    ensures Archive(NextSource(src, Bump(t, record, at)),
                    w.(taken := w.taken + {Emission(src, Bump(t, record, at)).value}))
  {
    var m := Emission(src, Bump(t, record, at)).value;
    var src' := NextSource(src, Bump(t, record, at));
    forall a | a in w.taken + {m} ensures NotAhead(src', a) {
      assert a in w.taken ==> NotAhead(src, a);
    }
    forall a, b | a in w.taken + {m} && b in w.taken + {m} && SameStamp(a, b) ensures a.orders == b.orders {
      assert a in w.taken ==> NotAhead(src, a);
      assert b in w.taken ==> NotAhead(src, b);
    }
  }

  lemma RelaunchArchive(src: Source, w: Wire)
    requires Archive(src, w)
    ensures Archive(Renewed(src), w)
  {
    forall m | m in w.taken ensures NotAhead(Renewed(src), m) {
      assert NotAhead(src, m);
    }
  }

  lemma ArchiveKept(src: Source, w: Wire, e: Effect, handed: bool)
    requires Archive(src, w) && Possible(src, e)
    ensures Archive(NextSource(src, e), NextWire(src, w, e, handed))
  {
    match e
    case Bump(t, record, at) => BumpArchive(src, w, t, record, at);
    case ListAll(todo) => SnapshotsArchive(src, w, NextSource(src, e), todo);
    case Renew(todo) =>
      SnapshotsArchive(src, w, Renewed(src), todo);
    case Relaunch => RelaunchArchive(src, w);
    case _ =>
  }

  lemma FlowKept(src: Source, w: Wire, e: Effect, handed: bool)
    requires Archive(src, w) && Flow(src, w) && Possible(src, e) && (handed ==> w.up)
    ensures Flow(NextSource(src, e), NextWire(src, w, e, handed))
  {
    var src', w' := NextSource(src, e), NextWire(src, w, e, handed);
    assert forall m :: m in Stream(w) ==> NotAhead(src, m);
    if e.Relaunch? {
      assert Stream(w') == w.log;
      assert forall i :: 0 <= i < |w.log| ==> Stream(w)[i] == w.log[i];
    } else if Emission(src, e).Some? && handed {
      assert Stream(w') == Stream(w) + [Emission(src, e).value];
      assert forall i :: 0 <= i < |Stream(w)| ==> Stream(w)[i] in Stream(w);
    } else {
      assert Stream(w') == Stream(w);
    }
  }

  lemma CoveredGrows(src: Source, src': Source, ms: seq<TableState>, ms': seq<TableState>, from: nat, t: TableId)
    requires t in src.tables && t in src'.tables && src'.tables[t] == src.tables[t] && src'.epoch == src.epoch
    requires ms <= ms' && Covered(src, ms, from, t)
    ensures Covered(src', ms', from, t)
  {
    var i :| from <= i < |ms| && ms[i].tableId == t && Current(src, ms[i]);
    assert ms'[i] == ms[i];
  }

  lemma CoverageAfterBump(src: Source, w: Wire, t: TableId, record: TableRecord, at: Millis)
    requires Coverage(src, w) && Possible(src, Bump(t, record, at))
    ensures Coverage(NextSource(src, Bump(t, record, at)), NextWire(src, w, Bump(t, record, at), true))
  {
    var e := Bump(t, record, at);
    var src', w' := NextSource(src, e), NextWire(src, w, e, true);
    assert Stream(w') == Stream(w) + [Emission(src, e).value];
    if w'.intact {
      forall u | u in src'.tables ensures Covered(src', Stream(w'), w'.mark, u) || Pending(src', u) {
        if u == t {
          assert Current(src', Stream(w')[|Stream(w)|]);
        } else if Covered(src, Stream(w), w.mark, u) {
          CoveredGrows(src, src', Stream(w), Stream(w'), w.mark, u);
        } else {
          var m :| m in src.todo && m.tableId == u && Current(src, m);
          assert Current(src', m);
        }
      }
    }
  }

  lemma CoverageAfterReplay(src: Source, w: Wire)
    requires Flow(src, w) && Coverage(src, w) && src.todo != []
    ensures Coverage(NextSource(src, Replay), NextWire(src, w, Replay, true))
  {
    var src', w' := NextSource(src, Replay), NextWire(src, w, Replay, true);
    var m := src.todo[0];
    assert Stream(w') == Stream(w) + [m];
    if w'.intact {
      forall u | u in src'.tables ensures Covered(src', Stream(w'), w'.mark, u) || Pending(src', u) {
        if Covered(src, Stream(w), w.mark, u) {
          CoveredGrows(src, src', Stream(w), Stream(w'), w.mark, u);
        } else {
          var p :| p in src.todo && p.tableId == u && Current(src, p);
          if p == m {
            assert Current(src', Stream(w')[|Stream(w)|]);
          } else {
            assert p in src'.todo;
          }
        }
      }
    }
  }

  lemma CoverageAfterListing(src: Source, w: Wire, todo: seq<TableState>)
    requires Complete(src, todo) && src.todo == todo
    requires w.intact ==> w.mark <= |Stream(w)|
    ensures Coverage(src, w)
  {
    forall t | t in src.tables ensures Pending(src, t) {
      assert Mentions(todo, t);
    }
  }

  lemma CoverageKept(src: Source, w: Wire, e: Effect, handed: bool)
    requires Flow(src, w) && Coverage(src, w) && Possible(src, e)
    ensures Coverage(NextSource(src, e), NextWire(src, w, e, handed))
  {
    match e
    case Bump(t, record, at) => if handed { CoverageAfterBump(src, w, t, record, at); }
    case Replay => if handed { CoverageAfterReplay(src, w); }
    case ListAll(todo) => CoverageAfterListing(NextSource(src, e), NextWire(src, w, e, handed), todo);
    case Renew(todo) => CoverageAfterListing(NextSource(src, e), NextWire(src, w, e, handed), todo);
    case _ =>
  }

  lemma SlotAppend(ms: seq<TableState>, m: TableState, t: TableId)
    ensures Slot(ms + [m], t) == if m.tableId == t then Some(m) else Slot(ms, t)
  {
    assert (ms + [m])[..|ms|] == ms;
  }

  /** Publishing a change brings the table's slot up to date, whatever else is pending. */
  lemma SlotsAfterBump(src: Source, w: Wire, t: TableId, record: TableRecord, at: Millis)
    requires Archive(src, w) && Flow(src, w) && SlotsKnown(src, w) && Possible(src, Bump(t, record, at))
    ensures SlotsKnown(NextSource(src, Bump(t, record, at)), NextWire(src, w, Bump(t, record, at), true))
  {
    var e := Bump(t, record, at);
    var src', w' := NextSource(src, e), NextWire(src, w, e, true);
    var m := Emission(src, e).value;
    assert Stream(w') == Stream(w) + [m];
    forall p | p in src'.todo ensures p.tableId in w'.touched <==> !Current(src', p) {
      assert NotAhead(src, p);
    }
    if w'.intact {
      forall u | u in src'.tables && !Mentions(src'.todo, u)
        ensures SlotCurrent(src', Stream(w'), u) <==> u !in w'.lagging
      {
        SlotAppend(Stream(w), m, u);
      }
    }
  }

  lemma MentionsTail(todo: seq<TableState>, t: TableId)
    requires todo != []
    ensures Mentions(todo, t) ==> todo[0].tableId == t || Mentions(todo[1..], t)
  {
    if m :| m in todo && m.tableId == t {
      assert m == todo[0] || m in todo[1..];
    }
  }

  /** Publishing a snapshot taken earlier leaves the slot current exactly if nothing changed
      that table in between. */
  lemma SlotsAfterReplay(src: Source, w: Wire)
    requires Flow(src, w) && SlotsKnown(src, w) && src.todo != []
    ensures SlotsKnown(NextSource(src, Replay), NextWire(src, w, Replay, true))
  {
    var src', w' := NextSource(src, Replay), NextWire(src, w, Replay, true);
    var m := src.todo[0];
    assert Stream(w') == Stream(w) + [m];
    if w'.intact {
      forall u | u in src'.tables && !Mentions(src'.todo, u)
        ensures SlotCurrent(src', Stream(w'), u) <==> u !in w'.lagging
      {
        SlotAppend(Stream(w), m, u);
        MentionsTail(src.todo, u);
      }
    }
  }

  lemma SlotsAfterLoss(src: Source, w: Wire, e: Effect)
    requires Archive(src, w) && Flow(src, w) && SlotsKnown(src, w) && Possible(src, e) && (e.Bump? || e.Replay?)
    ensures SlotsKnown(NextSource(src, e), NextWire(src, w, e, false))
  {
    var src', w' := NextSource(src, e), NextWire(src, w, e, false);
    forall p | p in src'.todo ensures p.tableId in w'.touched <==> !Current(src', p) {
      assert NotAhead(src, p);
    }
  }

  lemma SlotsKept(src: Source, w: Wire, e: Effect, handed: bool)
    requires Archive(src, w) && Flow(src, w) && SlotsKnown(src, w) && Possible(src, e)
    ensures SlotsKnown(NextSource(src, e), NextWire(src, w, e, handed))
  {
    if e.Bump? || e.Replay? {
      if !handed {
        SlotsAfterLoss(src, w, e);
      } else if e.Bump? {
        SlotsAfterBump(src, w, e.tableId, e.record, e.at);
      } else {
        SlotsAfterReplay(src, w);
      }
    }
  }

  /** Nothing the source does can upset the replication invariants. */
  lemma SourceStepKeeps(src: Source, w: Wire, e: Effect, handed: bool)
    requires ReplicationInv(src, w) && Possible(src, e) && (handed ==> w.up)
    ensures ReplicationInv(NextSource(src, e), NextWire(src, w, e, handed))
  {
    hide Archive, Flow, Coverage, SlotsKnown, ClientSound;
    ArchiveKept(src, w, e, handed);
    FlowKept(src, w, e, handed);
    CoverageKept(src, w, e, handed);
    SlotsKept(src, w, e, handed);
    assert NextWire(src, w, e, handed).log == w.log && NextWire(src, w, e, handed).clients == w.clients;
  }

  // --- the link, the broker and the windows act ---------------------------------------------

  /** The log only ever grows by the head of the pipe, so what was sound stays sound. */
  lemma ClientAfterArrival(log: seq<TableState>, m: TableState, c: Client)
    requires ClientSound(log, c)
    ensures ClientSound(log + [m], c)
  {
    if c.subscribed {
      assert (log + [m])[..c.since] == log[..c.since];
    }
  }

  lemma ArrivalKeeps(src: Source, w: Wire)
    requires ReplicationInv(src, w) && LinkEnabled(w, Arrive)
    ensures ReplicationInv(src, NextLink(w, Arrive))
  {
    var w' := NextLink(w, Arrive);
    assert Stream(w') == Stream(w);
    forall c | c in w'.clients ensures ClientSound(w'.log, w'.clients[c]) {
      ClientAfterArrival(w.log, w.pipe[0], w.clients[c]);
    }
  }

  lemma OrderedPrefix(ms: seq<TableState>, prefix: seq<TableState>)
    requires InOrder(ms) && prefix <= ms
    ensures InOrder(prefix)
  {
    assert forall i :: 0 <= i < |prefix| ==> prefix[i] == ms[i];
  }

  /** A cut loses what is in the pipe, and says so. */
  lemma CutKeeps(src: Source, w: Wire)
    requires ReplicationInv(src, w)
    ensures ReplicationInv(src, NextLink(w, Cut))
  {
    var w' := NextLink(w, Cut);
    assert Stream(w') == w.log;
    OrderedPrefix(Stream(w), w.log);
  }

  lemma SubscribeKeeps(log: seq<TableState>, view: TableMap)
    requires ViewSound(log, view)
    ensures ClientSound(log, Client(view, true, |log|, |log|, Slots(log)))
  {
    assert log[..|log|] == log;
    forall t | LastIndex(log, t).Some? ensures t in Slots(log) && Slots(log)[t] == LastIndex(log, t).value {
      assert log[LastIndex(log, t).value] in log;
    }
  }

  lemma DeliveryKeeps(log: seq<TableState>, c: Client, i: nat)
    requires ClientSound(log, c) && i < |log|
    ensures ViewSound(log, ApplyTableState(c.view, log[i]))
  {
  }

  lemma ClientStepKeeps(w: Wire, a: LinkAction)
    requires Windows(w) && LinkEnabled(w, a) && !a.Cut? && !a.Arrive?
    ensures Windows(NextLink(w, a))
  {
    hide LastIndex, Slots, ViewSound;
    var w' := NextLink(w, a);
    var c := a.client;
    assert c in w.clients ==> ClientSound(w.log, w.clients[c]);
    if a.Subscribe? {
      NothingShown(w.log);
      SubscribeKeeps(w.log, w'.clients[c].view);
    } else if a.Retained? {
      DeliveryKeeps(w.log, w.clients[c], w.clients[c].owed[a.tableId]);
    } else if a.Deliver? {
      DeliveryKeeps(w.log, w.clients[c], w.clients[c].cursor);
    }
    assert ClientSound(w.log, w'.clients[c]);
    assert forall d :: d in w'.clients && d != c ==> d in w.clients && w'.clients[d] == w.clients[d];
  }

  lemma NothingShown(log: seq<TableState>)
    ensures ViewSound(log, map[])
  {
  }

  /** Nothing the link, the broker or the windows do can upset the replication invariants:
      losses, late retained messages and redeliveries included. */
  lemma LinkStepKeeps(src: Source, w: Wire, a: LinkAction)
    requires ReplicationInv(src, w) && LinkEnabled(w, a)
    ensures ReplicationInv(src, NextLink(w, a))
  {
    if a.Cut? {
      CutKeeps(src, w);
    } else if a.Arrive? {
      ArrivalKeeps(src, w);
    } else {
      ClientStepKeeps(w, a);
      OnlyClientsChange(src, w, NextLink(w, a));
    }
  }

  lemma OnlyClientsChange(src: Source, w: Wire, w': Wire)
    requires ReplicationInv(src, w) && w' == w.(clients := w'.clients) && Windows(w')
    ensures ReplicationInv(src, w')
  {
    hide ClientSound;
    assert Stream(w') == Stream(w);
  }
}
