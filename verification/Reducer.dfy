/** The browser's table map and its version guard, and exactly what folding it computes. */
module Reducer {
  import opened Models

  type TableMap = map<TableId, TableState>

  /** Take a snapshot in, unless one at least as new of the same generation is held. */
  function ApplyTableState(current: TableMap, next: TableState): TableMap {
    if next.tableId in current
       && current[next.tableId].epoch == next.epoch
       && next.version <= current[next.tableId].version
    then current
    else current[next.tableId := next]
  }

  function Fold(current: TableMap, messages: seq<TableState>): TableMap {
    if messages == [] then current
    else ApplyTableState(Fold(current, messages[..|messages| - 1]), messages[|messages| - 1])
  }

  // --- the meaning of a fold ------------------------------------------------------------

  /** The messages about one table, in arrival order. */
  function ForTable(messages: seq<TableState>, t: TableId): seq<TableState> {
    if messages == [] then []
    else
      var rest := ForTable(messages[..|messages| - 1], t);
      var last := messages[|messages| - 1];
      if last.tableId == t then rest + [last] else rest
  }

  /** Where the last unbroken run of one epoch starts. */
  function RunStart(ms: seq<TableState>): (r: nat)
    ensures r <= |ms|
    ensures ms != [] ==> r < |ms|
    ensures forall i :: r <= i < |ms| ==> ms[i].epoch == ms[|ms| - 1].epoch
    ensures r > 0 ==> ms[r - 1].epoch != ms[|ms| - 1].epoch
  {
    if |ms| <= 1 then 0
    else
      var n := |ms| - 1;
      if ms[n - 1].epoch == ms[n].epoch then RunStart(ms[..n]) else n
  }

  /** `ms[i]` is the first message of the highest version in `ms[from..]`. */
  ghost predicate FirstHighest(ms: seq<TableState>, from: nat, i: int) {
    && from <= i < |ms|
    && (forall j :: from <= j < |ms| ==> ms[j].version <= ms[i].version)
    && (forall j :: from <= j < i ==> ms[j].version < ms[i].version)
  }

  /** `held` is the first highest-version snapshot of the last unbroken same-epoch run. */
  ghost predicate Survives(ms: seq<TableState>, held: TableState) {
    exists i :: FirstHighest(ms, RunStart(ms), i) && ms[i] == held
  }

  /** A fold from an empty map holds, per table, exactly what survives of that table's
      messages, and nothing for a table never mentioned. */
  lemma {:induction false} FoldMeaning(messages: seq<TableState>, t: TableId)
    ensures t in Fold(map[], messages) <==> ForTable(messages, t) != []
    ensures t in Fold(map[], messages) ==> Survives(ForTable(messages, t), Fold(map[], messages)[t])
  {
    if messages == [] {
    } else {
      var n := |messages| - 1;
      FoldMeaning(messages[..n], t);
      if messages[n].tableId == t {
        FoldExtends(Fold(map[], messages[..n]), ForTable(messages[..n], t), messages[n]);
      }
    }
  }

  lemma {:induction false} RunExtends(before: seq<TableState>, next: TableState)
    ensures RunStart(before + [next]) ==
            if before != [] && before[|before| - 1].epoch == next.epoch then RunStart(before) else |before|
  {
    assert (before + [next])[..|before|] == before;
  }

  /** One more message for the table, on top of a fold already characterised. */
  lemma {:induction false} FoldExtends(held: TableMap, before: seq<TableState>, next: TableState)
    requires next.tableId in held <==> before != []
    requires before != [] ==> Survives(before, held[next.tableId])
    ensures Survives(before + [next], ApplyTableState(held, next)[next.tableId])
  {
    hide RunStart;
    var ms := before + [next];
    var n := |before|;
    RunExtends(before, next);
    if before == [] {
      assert FirstHighest(ms, RunStart(ms), n);
    } else {
      var i :| FirstHighest(before, RunStart(before), i) && before[i] == held[next.tableId];
      if before[n - 1].epoch != next.epoch || before[i].version < next.version {
        assert FirstHighest(ms, RunStart(ms), n);
      } else {
        assert FirstHighest(ms, RunStart(ms), i);
      }
    }
  }

  // --- delivery order within a run -------------------------------------------------------

  ghost predicate SameMembers(a: seq<TableState>, b: seq<TableState>) {
    forall m :: m in a <==> m in b
  }

  ghost predicate OneEpoch(ms: seq<TableState>, epoch: Epoch) {
    forall m :: m in ms ==> m.epoch == epoch
  }

  lemma {:induction false} ForTableMembers(messages: seq<TableState>, t: TableId)
    ensures forall m :: m in ForTable(messages, t) <==> m in messages && m.tableId == t
  {
    if messages == [] {
    } else {
      var n := |messages| - 1;
      ForTableMembers(messages[..n], t);
      assert messages == messages[..n] + [messages[n]];
    }
  }

  lemma {:induction false} ForTableConcat(a: seq<TableState>, b: seq<TableState>, t: TableId)
    ensures ForTable(a + b, t) == ForTable(a, t) + ForTable(b, t)
  {
    if b == [] {
      assert a + b == a;
    } else {
      var n := |b| - 1;
      assert (a + b)[..|a| + n] == a + b[..n];
      ForTableConcat(a, b[..n], t);
    }
  }

  /** A run of one epoch reaches into a prefix exactly as far as that epoch does. */
  lemma {:induction false} RunIntoPrefix(p: seq<TableState>, run: seq<TableState>, epoch: Epoch)
    requires run != [] && OneEpoch(run, epoch)
    ensures RunStart(p + run) == if p != [] && p[|p| - 1].epoch == epoch then RunStart(p) else |p|
  {
    var n := |run| - 1;
    assert p + run == (p + run[..n]) + [run[n]];
    RunExtends(p + run[..n], run[n]);
    if n == 0 {
      assert p + run[..n] == p;
    } else {
      assert run[n - 1] in run;
      RunIntoPrefix(p, run[..n], epoch);
    }
  }

  /** From a common start, `p + a` holds nothing newer than `p + b`. */
  lemma TopCovered(p: seq<TableState>, a: seq<TableState>, b: seq<TableState>, from: nat, i: int, j: int)
    requires SameMembers(a, b)
    requires FirstHighest(p + a, from, i) && FirstHighest(p + b, from, j)
    requires from <= |p|
    ensures (p + a)[i].version <= (p + b)[j].version
  {
    if i < |p| {
      assert (p + b)[i] == (p + a)[i];
    } else {
      var x := (p + a)[i];
      assert x == a[i - |p|] && x in b;
      var n :| 0 <= n < |b| && b[n] == x;
      assert (p + b)[|p| + n] == x;
    }
  }

  lemma SameTop(p: seq<TableState>, a: seq<TableState>, b: seq<TableState>, epoch: Epoch,
                x: TableState, y: TableState)
    requires a != [] && b != [] && SameMembers(a, b) && OneEpoch(a, epoch) && OneEpoch(b, epoch)
    requires Survives(p + a, x) && Survives(p + b, y)
    ensures x.epoch == y.epoch && x.version == y.version
  {
    hide RunStart, OneEpoch;
    RunIntoPrefix(p, a, epoch);
    RunIntoPrefix(p, b, epoch);
    var from := RunStart(p + a);
    RunBounds(p);
    var i :| FirstHighest(p + a, from, i) && (p + a)[i] == x;
    var j :| FirstHighest(p + b, from, j) && (p + b)[j] == y;
    TopCovered(p, a, b, from, i, j);
    TopCovered(p, b, a, from, j, i);
    RunEpoch(p, a, epoch, i);
    RunEpoch(p, b, epoch, j);
  }

  lemma RunBounds(ms: seq<TableState>)
    ensures RunStart(ms) <= |ms|
  {
  }

  lemma RunEpoch(p: seq<TableState>, run: seq<TableState>, epoch: Epoch, i: int)
    requires run != [] && OneEpoch(run, epoch) && FirstHighest(p + run, RunStart(p + run), i)
    ensures (p + run)[i].epoch == epoch
  {
    assert (p + run)[|p + run| - 1] == run[|run| - 1];
  }

  /** Only one snapshot can survive a message sequence. */
  lemma SurvivorUnique(ms: seq<TableState>, x: TableState, y: TableState)
    requires Survives(ms, x) && Survives(ms, y)
    ensures x == y
  {
    var i :| FirstHighest(ms, RunStart(ms), i) && ms[i] == x;
    var j :| FirstHighest(ms, RunStart(ms), j) && ms[j] == y;
  }

  /** After any prefix, all that matters of one generation's messages is which of them arrive:
      reordering or repeating them changes neither the epoch nor the version held. */
  lemma RedeliveryIsHarmless(prefix: seq<TableState>, a: seq<TableState>, b: seq<TableState>, epoch: Epoch, t: TableId)
    requires SameMembers(a, b) && OneEpoch(a, epoch) && OneEpoch(b, epoch)
    ensures t in Fold(map[], prefix + a) <==> t in Fold(map[], prefix + b)
    ensures t in Fold(map[], prefix + a) ==>
              && Fold(map[], prefix + a)[t].epoch == Fold(map[], prefix + b)[t].epoch
              && Fold(map[], prefix + a)[t].version == Fold(map[], prefix + b)[t].version
  {
    hide Fold, ForTable, Survives;
    FoldMeaning(prefix + a, t);
    FoldMeaning(prefix + b, t);
    ForTableConcat(prefix, a, t);
    ForTableConcat(prefix, b, t);
    ForTableMembers(a, t);
    ForTableMembers(b, t);
    var p, ta, tb := ForTable(prefix, t), ForTable(a, t), ForTable(b, t);
    if ta == [] || tb == [] {
      SameEmpty(ta, tb);
      SameEmpty(tb, ta);
      if p + ta != [] {
        SurvivorUnique(p + ta, Fold(map[], prefix + a)[t], Fold(map[], prefix + b)[t]);
      }
    } else {
      SameTop(p, ta, tb, epoch, Fold(map[], prefix + a)[t], Fold(map[], prefix + b)[t]);
    }
  }

  lemma SameEmpty(a: seq<TableState>, b: seq<TableState>)
    requires SameMembers(a, b)
    ensures a == [] ==> b == []
  {
    if b != [] {
      assert b[0] in a;
    }
  }
}
