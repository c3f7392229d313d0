/**
Why subscribing first and reading a snapshot second is sound. A consumer that starts
from a snapshot of a table and then applies a stream of changes that began before the
snapshot sees some changes twice: in the snapshot and again in the stream. This module
shows, for any consumer meeting three local conditions, that it still ends up with
exactly the table's contents once it has read past the snapshot. Should some changes not
be relayed to it, only their rows can come out wrong.
 */
module SnapshotReplay {
  import opened Prelude
  import opened Broker

  datatype Row<K, V> = Row(key: K, value: V)

  /** A row change as forwarded: the new row, or the old one for a deletion. */
  type Change<K, V> = Event<Row<K, V>>

  function ApplyChange<K, V>(db: map<K, V>, e: Change<K, V>): map<K, V> {
    if e.kind == Deleted then db - {e.payload.key} else db[e.payload.key := e.payload.value]
  }

  /** Rows are created once, and updated or deleted while they exist; an update does not
      change whether the consumer cares about the row. */
  predicate Legal<K, V>(tracked: V -> bool, db: map<K, V>, e: Change<K, V>) {
    match e.kind
    case Created => e.payload.key !in db
    case Updated => e.payload.key in db && tracked(db[e.payload.key]) == tracked(e.payload.value)
    case Deleted => e.payload.key in db
  }

  /** The table after a history of changes. */
  function Table<K, V>(hist: seq<Change<K, V>>): map<K, V> {
    if hist == [] then map[] else ApplyChange(Table(hist[..|hist| - 1]), hist[|hist| - 1])
  }

  ghost predicate LegalAt<K, V>(tracked: V -> bool, hist: seq<Change<K, V>>, n: nat)
    requires n < |hist|
  {
    Legal(tracked, Table(hist[..n]), hist[n])
  }

  ghost predicate LegalHistory<K, V>(tracked: V -> bool, hist: seq<Change<K, V>>) {
    forall n :: 0 <= n < |hist| ==> LegalAt(tracked, hist, n)
  }

  lemma LegalOneMore<K, V>(tracked: V -> bool, hist: seq<Change<K, V>>, e: Change<K, V>)
    requires LegalHistory(tracked, hist) && Legal(tracked, Table(hist), e)
    ensures LegalHistory(tracked, hist + [e])
  {
    var h := hist + [e];
    forall n | 0 <= n < |h| ensures LegalAt(tracked, h, n) {
      assert h[..n] == hist[..n];
      if n < |hist| { assert LegalAt(tracked, hist, n); } else { assert hist[..n] == hist; }
    }
  }

  /** A query result that lists every row of a table once, in some order. */
  ghost predicate Lists<K(!new), V>(rows: seq<(K, V)>, table: map<K, V>) {
    && (forall i, j :: 0 <= i < j < |rows| ==> rows[i].0 != rows[j].0)
    && (forall i :: 0 <= i < |rows| ==> rows[i].0 in table && table[rows[i].0] == rows[i].1)
    && (forall id :: id in table ==> exists i :: 0 <= i < |rows| && rows[i].0 == id)
  }

  /** The rows the consumer cares about. */
  function Visible<K, V>(tracked: V -> bool, db: map<K, V>): map<K, V> {
    map k | k in db && tracked(db[k]) :: db[k]
  }

  function Entry<K, V>(m: map<K, V>, k: K): Option<V> {
    if k in m then Some(m[k]) else None
  }

  /** What the consumer should hold for the changed row afterwards. */
  function Target<K, V>(tracked: V -> bool, e: Change<K, V>): Option<V> {
    if e.kind == Deleted || !tracked(e.payload.value) then None else Some(e.payload.value)
  }

  /** The consumer's entry for the changed row is the one the change expects to find. */
  predicate Expected<K, V>(tracked: V -> bool, m: map<K, V>, e: Change<K, V>) {
    match e.kind
    case Created => e.payload.key !in m
    case Updated => e.payload.key in m <==> tracked(e.payload.value)
    case Deleted => true
  }

  /** A consumer touches only the changed row, either leaves that row alone or brings it
      to its target, and does the latter whenever the change is expected. */
  ghost predicate FaithfulAt<K(!new), V>(f: (map<K, V>, Change<K, V>) -> map<K, V>, tracked: V -> bool,
                                         m: map<K, V>, e: Change<K, V>)
  {
    var r := f(m, e);
    var key := e.payload.key;
    && (forall k :: k != key ==> Entry(r, k) == Entry(m, k))
    && (Entry(r, key) == Entry(m, key) || Entry(r, key) == Target(tracked, e))
    && (Expected(tracked, m, e) ==> Entry(r, key) == Target(tracked, e))
  }

  ghost predicate Faithful<K(!new), V(!new)>(f: (map<K, V>, Change<K, V>) -> map<K, V>, tracked: V -> bool) {
    forall m, e :: FaithfulAt(f, tracked, m, e)
  }

  function Replay<K, V>(f: (map<K, V>, Change<K, V>) -> map<K, V>, m: map<K, V>, es: seq<Change<K, V>>): map<K, V> {
    if es == [] then m else f(Replay(f, m, es[..|es| - 1]), es[|es| - 1])
  }

  /** What is relayed of changes i to n: those at positions in `relayed`, in order. */
  function Kept<K, V>(hist: seq<Change<K, V>>, relayed: set<nat>, i: nat, n: nat): seq<Change<K, V>>
    requires n <= |hist|
  {
    if n <= i then []
    else if n - 1 in relayed then Kept(hist, relayed, i, n - 1) + [hist[n - 1]]
    else Kept(hist, relayed, i, n - 1)
  }

  /** One of the changes i to n of row k was not relayed. */
  ghost predicate MissedRow<K, V>(hist: seq<Change<K, V>>, relayed: set<nat>, i: nat, n: nat, k: K)
    requires n <= |hist|
  {
    exists p: nat :: i <= p < n && p !in relayed && hist[p].payload.key == k
  }

  lemma SameEntries<K(!new), V>(m: map<K, V>, a: map<K, V>)
    requires forall k :: Entry(m, k) == Entry(a, k)
    ensures m == a
  {
    assert forall k :: k in m ==> Entry(m, k) == Entry(a, k);
    assert forall k :: k in a ==> Entry(m, k) == Entry(a, k);
  }

  lemma TablePrefix<K, V>(hist: seq<Change<K, V>>, n: nat)
    requires n < |hist|
    ensures Table(hist[..n + 1]) == ApplyChange(Table(hist[..n]), hist[n])
  {
    assert hist[..n + 1][..n] == hist[..n];
  }

  lemma ReplayOneMore<K, V>(f: (map<K, V>, Change<K, V>) -> map<K, V>, m: map<K, V>, es: seq<Change<K, V>>, e: Change<K, V>)
    ensures Replay(f, m, es + [e]) == f(Replay(f, m, es), e)
  {
    assert (es + [e])[..|es|] == es;
  }

  /** Row k of m agrees with a or with b. */
  ghost predicate Between<K, V>(m: map<K, V>, a: map<K, V>, b: map<K, V>, k: K) {
    Entry(m, k) == Entry(a, k) || Entry(m, k) == Entry(b, k)
  }

  /** One change: a row lying between the table and the goal then lies between the changed
      table and the goal. */
  lemma StepStaysBetween<K(!new), V(!new)>(f: (map<K, V>, Change<K, V>) -> map<K, V>, tracked: V -> bool,
                                           db: map<K, V>, e: Change<K, V>, m: map<K, V>, goal: map<K, V>, k: K)
    requires Faithful(f, tracked) && Legal(tracked, db, e)
    requires Between(m, Visible(tracked, db), goal, k)
    ensures Between(f(m, e), Visible(tracked, ApplyChange(db, e)), goal, k)
  {
    assert FaithfulAt(f, tracked, m, e);
    var db' := ApplyChange(db, e);
    if k != e.payload.key {
      assert Entry(Visible(tracked, db'), k) == Entry(Visible(tracked, db), k);
    } else {
      assert Entry(Visible(tracked, db'), k) == Target(tracked, e);
    }
  }

  /** While catching up, a row none of whose changes was missed is as it was in the table
      at the replayed point or as it is in the snapshot. */
  lemma {:induction false} CatchingUp<K(!new), V(!new)>(f: (map<K, V>, Change<K, V>) -> map<K, V>, tracked: V -> bool,
                                                        hist: seq<Change<K, V>>, relayed: set<nat>, i: nat, n: nat,
                                                        goal: map<K, V>, start: map<K, V>, k: K)
    requires Faithful(f, tracked) && LegalHistory(tracked, hist)
    requires i <= n <= |hist| && !MissedRow(hist, relayed, i, n, k)
    requires Between(start, Visible(tracked, Table(hist[..i])), goal, k)
    ensures Between(Replay(f, start, Kept(hist, relayed, i, n)), Visible(tracked, Table(hist[..n])), goal, k)
    decreases n
  {
    if n > i {
      CatchingUp(f, tracked, hist, relayed, i, n - 1, goal, start, k);
      var e, es := hist[n - 1], Kept(hist, relayed, i, n - 1);
      TablePrefix(hist, n - 1);
      if n - 1 in relayed {
        assert LegalAt(tracked, hist, n - 1);
        StepStaysBetween(f, tracked, Table(hist[..n - 1]), e, Replay(f, start, es), goal, k);
        ReplayOneMore(f, start, es, e);
      } else {
        assert e.payload.key != k;
      }
    }
  }

  lemma ReplayConcat<K, V>(f: (map<K, V>, Change<K, V>) -> map<K, V>, m: map<K, V>, a: seq<Change<K, V>>, b: seq<Change<K, V>>)
    ensures Replay(f, m, a + b) == Replay(f, Replay(f, m, a), b)
  {
    if b == [] {
      assert a + b == a;
    } else {
      assert (a + b)[..|a + b| - 1] == a + b[..|b| - 1];
      ReplayConcat(f, m, a, b[..|b| - 1]);
    }
  }

  lemma {:induction false} KeptMembers<K, V>(hist: seq<Change<K, V>>, relayed: set<nat>, i: nat, n: nat)
    requires n <= |hist|
    ensures forall m :: 0 <= m < |Kept(hist, relayed, i, n)| ==> Kept(hist, relayed, i, n)[m] in hist
  {
    if i < n { KeptMembers(hist, relayed, i, n - 1); }
  }

  lemma {:induction false} KeptConcat<K, V>(hist: seq<Change<K, V>>, relayed: set<nat>, i: nat, j: nat, n: nat)
    requires i <= j <= n <= |hist|
    ensures Kept(hist, relayed, i, n) == Kept(hist, relayed, i, j) + Kept(hist, relayed, j, n)
  {
    if n > j { KeptConcat(hist, relayed, i, j, n - 1); }
  }

  /** Misses are confined to their rows: from a snapshot taken after change j and what is
      relayed of changes i <= j through n >= j, every row none of whose changes was missed
      comes out as in the table after change n. */
  lemma UnmissedRowIsRight<K(!new), V(!new)>(f: (map<K, V>, Change<K, V>) -> map<K, V>, tracked: V -> bool,
                                             hist: seq<Change<K, V>>, relayed: set<nat>, i: nat, j: nat, n: nat, k: K)
    requires Faithful(f, tracked) && LegalHistory(tracked, hist)
    requires i <= j <= n <= |hist| && !MissedRow(hist, relayed, i, n, k)
    ensures Entry(Replay(f, Visible(tracked, Table(hist[..j])), Kept(hist, relayed, i, n)), k)
            == Entry(Visible(tracked, Table(hist[..n])), k)
  {
    var snapshot, goal := Visible(tracked, Table(hist[..j])), Visible(tracked, Table(hist[..n]));
    // at the snapshot's position the two alternatives coincide
    CatchingUp(f, tracked, hist, relayed, i, j, snapshot, snapshot, k);
    // and from then on the row keeps step with the table
    CatchingUp(f, tracked, hist, relayed, j, n, goal, Replay(f, snapshot, Kept(hist, relayed, i, j)), k);
    KeptConcat(hist, relayed, i, j, n);
    ReplayConcat(f, snapshot, Kept(hist, relayed, i, j), Kept(hist, relayed, j, n));
  }

  ghost predicate AllRelayed(relayed: set<nat>, i: nat, n: nat) { forall p: nat :: i <= p < n ==> p in relayed }

  function Below(n: nat): (r: set<nat>)
    ensures forall p: nat :: p in r <==> p < n
  {
    if n == 0 then {} else Below(n - 1) + {n - 1}
  }

  /** So if nothing was missed, the whole view is the table. */
  lemma NothingMissedIsRight<K(!new), V(!new)>(f: (map<K, V>, Change<K, V>) -> map<K, V>, tracked: V -> bool,
                                               hist: seq<Change<K, V>>, relayed: set<nat>, i: nat, j: nat, n: nat)
    requires Faithful(f, tracked) && LegalHistory(tracked, hist)
    requires i <= j <= n <= |hist| && AllRelayed(relayed, i, n)
    ensures Replay(f, Visible(tracked, Table(hist[..j])), Kept(hist, relayed, i, n)) == Visible(tracked, Table(hist[..n]))
  {
    var view, goal := Replay(f, Visible(tracked, Table(hist[..j])), Kept(hist, relayed, i, n)), Visible(tracked, Table(hist[..n]));
    forall k ensures Entry(view, k) == Entry(goal, k) {
      UnmissedRowIsRight(f, tracked, hist, relayed, i, j, n, k);
    }
    SameEntries(view, goal);
  }

  /** What is relayed is the history itself exactly when nothing is missed. */
  lemma {:induction false} KeptIsAllIff<K, V>(hist: seq<Change<K, V>>, relayed: set<nat>, i: nat, n: nat)
    requires i <= n <= |hist|
    ensures |Kept(hist, relayed, i, n)| <= n - i
    ensures Kept(hist, relayed, i, n) == hist[i..n] <==> AllRelayed(relayed, i, n)
  {
    if i < n {
      KeptIsAllIff(hist, relayed, i, n - 1);
      var init, all := Kept(hist, relayed, i, n - 1), Kept(hist, relayed, i, n);
      assert hist[i..n] == hist[i..n - 1] + [hist[n - 1]];
      if all == hist[i..n] {
        assert n - 1 in relayed && all[..|init|] == init;
      }
    }
  }

  /** The overlap is harmless: a snapshot taken after change j, followed by the changes
      from i <= j through k >= j, is the table after change k. */
  lemma SnapshotThenReplay<K(!new), V(!new)>(f: (map<K, V>, Change<K, V>) -> map<K, V>, tracked: V -> bool,
                                             hist: seq<Change<K, V>>, i: nat, j: nat, k: nat)
    requires Faithful(f, tracked) && LegalHistory(tracked, hist)
    requires i <= j <= k <= |hist|
    ensures Replay(f, Visible(tracked, Table(hist[..j])), hist[i..k]) == Visible(tracked, Table(hist[..k]))
  {
    var all := Below(k);
    KeptIsAllIff(hist, all, i, k);
    NothingMissedIsRight(f, tracked, hist, all, i, j, k);
  }

  /* ---------- Missed changes ---------- */

  /** What the consumer does to the changed row depends on that row alone. */
  ghost predicate RowLocal<K(!new), V(!new)>(f: (map<K, V>, Change<K, V>) -> map<K, V>, g: (Option<V>, Change<K, V>) -> Option<V>) {
    forall m, e, k :: Entry(f(m, e), k) == if k == e.payload.key then g(Entry(m, k), e) else Entry(m, k)
  }

  /** What a row says after a stream of changes. */
  function RowReplay<K(==), V>(g: (Option<V>, Change<K, V>) -> Option<V>, start: Option<V>, es: seq<Change<K, V>>, k: K): Option<V> {
    if es == [] then start
    else
      var said := RowReplay(g, start, es[..|es| - 1], k);
      if es[|es| - 1].payload.key == k then g(said, es[|es| - 1]) else said
  }

  lemma {:induction false} ReplayByRow<K(!new), V(!new)>(f: (map<K, V>, Change<K, V>) -> map<K, V>, g: (Option<V>, Change<K, V>) -> Option<V>,
                                                         m: map<K, V>, es: seq<Change<K, V>>, k: K)
    requires RowLocal(f, g)
    ensures Entry(Replay(f, m, es), k) == RowReplay(g, Entry(m, k), es, k)
  {
    if es != [] { ReplayByRow(f, g, m, es[..|es| - 1], k); }
  }

  /** Every row one of whose changes was missed nevertheless says, after its own relayed
      changes, what the table says. */
  ghost predicate MissedRowsAgree<K(!new), V(!new)>(g: (Option<V>, Change<K, V>) -> Option<V>, tracked: V -> bool, hist: seq<Change<K, V>>,
                                                    relayed: set<nat>, i: nat, j: nat, n: nat)
    requires i <= j <= n <= |hist|
  {
    forall k :: MissedRow(hist, relayed, i, n, k) ==>
      RowReplay(g, Entry(Visible(tracked, Table(hist[..j])), k), Kept(hist, relayed, i, n), k)
      == Entry(Visible(tracked, Table(hist[..n])), k)
  }

  /** With misses, the view is the table exactly when the rows with missed changes agree. */
  lemma RightIffMissedRowsAgree<K(!new), V(!new)>(f: (map<K, V>, Change<K, V>) -> map<K, V>, g: (Option<V>, Change<K, V>) -> Option<V>,
                                                  tracked: V -> bool, hist: seq<Change<K, V>>, relayed: set<nat>, i: nat, j: nat, n: nat)
    requires Faithful(f, tracked) && RowLocal(f, g) && LegalHistory(tracked, hist)
    requires i <= j <= n <= |hist|
    ensures Replay(f, Visible(tracked, Table(hist[..j])), Kept(hist, relayed, i, n)) == Visible(tracked, Table(hist[..n]))
            <==> MissedRowsAgree(g, tracked, hist, relayed, i, j, n)
  {
    var snapshot, goal, es := Visible(tracked, Table(hist[..j])), Visible(tracked, Table(hist[..n])), Kept(hist, relayed, i, n);
    var view := Replay(f, snapshot, es);
    forall k ensures Entry(view, k) == RowReplay(g, Entry(snapshot, k), es, k) { ReplayByRow(f, g, snapshot, es, k); }
    if MissedRowsAgree(g, tracked, hist, relayed, i, j, n) {
      forall k ensures Entry(view, k) == Entry(goal, k) {
        if !MissedRow(hist, relayed, i, n, k) { UnmissedRowIsRight(f, tracked, hist, relayed, i, j, n, k); }
      }
      SameEntries(view, goal);
    }
  }

  /* ---------- Reading the snapshot ---------- */

  /** A view built from listed rows holds those the consumer cares about, and nothing else. */
  ghost predicate Holds<K(!new), V>(tracked: V -> bool, m: map<K, V>, rows: seq<(K, V)>) {
    && (forall id :: id in m ==> exists i :: 0 <= i < |rows| && rows[i].0 == id)
    && (forall i :: 0 <= i < |rows| ==> Entry(m, rows[i].0) == if tracked(rows[i].1) then Some(rows[i].1) else None)
  }

  lemma HoldsOneMore<K(!new), V>(tracked: V -> bool, m: map<K, V>, rows: seq<(K, V)>, n: nat)
    requires n == |rows| - 1 && Holds(tracked, m, rows[..n]) && forall i :: 0 <= i < n ==> rows[i].0 != rows[n].0
    ensures rows[n].0 !in m
    ensures Holds(tracked, if tracked(rows[n].1) then m[rows[n].0 := rows[n].1] else m, rows)
  {
    var init := rows[..n];
    assert forall i :: 0 <= i < n ==> init[i] == rows[i];
    var m' := if tracked(rows[n].1) then m[rows[n].0 := rows[n].1] else m;
    forall id | id in m' ensures exists i :: 0 <= i < |rows| && rows[i].0 == id {
      if id in m {
        var i :| 0 <= i < |init| && init[i].0 == id;
        assert rows[i].0 == id;
      } else {
        assert rows[n].0 == id;
      }
    }
  }

  lemma HoldsTheTable<K(!new), V>(tracked: V -> bool, m: map<K, V>, rows: seq<(K, V)>, table: map<K, V>)
    requires Holds(tracked, m, rows) && Lists(rows, table)
    ensures m == Visible(tracked, table)
  {
    var v := Visible(tracked, table);
    forall id ensures Entry(m, id) == Entry(v, id) {
      if id in table {
        var i :| 0 <= i < |rows| && rows[i].0 == id;
      }
    }
    SameEntries(m, v);
  }
}
