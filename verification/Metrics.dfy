/** The run status gauges (internal/run/metrics.go): a per-status tally kept in step with
    the runs table from a snapshot and an overlapping stream of run events. */
module Metrics {
  import opened Prelude
  import opened Broker
  import opened SnapshotReplay
  import LiveView

  type RunId = string
  type RunStatus = string

  /** A gauge that was never touched reads zero. */
  type Gauges = map<RunStatus, int>

  function Read(g: Gauges, status: RunStatus): int { if status in g then g[status] else 0 }

  function Add(g: Gauges, status: RunStatus, delta: int): Gauges { g[status := Read(g, status) + delta] }

  datatype Collector = Collector(statuses: map<RunId, RunStatus>, gauges: Gauges)

  /** bootstrap: forget the old statuses, then record and count each listed run. The
      gauges themselves are not reset. */
  function Bootstrap(g: Gauges, rows: seq<(RunId, RunStatus)>): Collector {
    if rows == [] then Collector(map[], g)
    else
      var (id, status) := rows[|rows| - 1];
      var c := Bootstrap(g, rows[..|rows| - 1]);
      Collector(c.statuses[id := status], Add(c.gauges, status, 1))
  }

  function Update(c: Collector, e: Change<RunId, RunStatus>): Collector {
    var Row(id, status) := e.payload;
    var g := if id in c.statuses then Add(c.gauges, c.statuses[id], -1) else c.gauges;
    if e.kind == Deleted then Collector(c.statuses - {id}, g)
    else Collector(c.statuses[id := status], Add(g, status, 1))
  }

  function Updates(c: Collector, es: seq<Change<RunId, RunStatus>>): Collector {
    if es == [] then c else Update(Updates(c, es[..|es| - 1]), es[|es| - 1])
  }

  class MetricsCollector {
    var currentStatuses: map<RunId, RunStatus>
    var gauges: Gauges // the process-wide gauge vector

    function Abs(): Collector
      reads this
    {
      Collector(currentStatuses, gauges)
    }

    method BootstrapFrom(statuses: seq<(RunId, RunStatus)>)
      modifies this
      ensures Abs() == Bootstrap(old(gauges), statuses)
    {
      currentStatuses := map[];
      for i := 0 to |statuses|
        invariant Abs() == Bootstrap(old(gauges), statuses[..i])
      {
        var (id, status) := statuses[i];
        assert statuses[..i + 1][..i] == statuses[..i];
        currentStatuses := currentStatuses[id := status];
        gauges := Add(gauges, status, 1);
      }
      assert statuses[..|statuses|] == statuses;
    }

    method Handle(event: Change<RunId, RunStatus>)
      modifies this
      ensures Abs() == Update(old(Abs()), event)
    {
      var id := event.payload.key;
      if event.kind == Deleted {
        if id in currentStatuses {
          gauges := Add(gauges, currentStatuses[id], -1);
        }
        currentStatuses := currentStatuses - {id};
      } else {
        if id in currentStatuses {
          gauges := Add(gauges, currentStatuses[id], -1);
        }
        currentStatuses := currentStatuses[id := event.payload.value];
        gauges := Add(gauges, event.payload.value, 1);
      }
    }
  }

  /* ---------- The tally ---------- */

  function InStatus(statuses: map<RunId, RunStatus>, s: RunStatus): set<RunId> {
    set id | id in statuses && statuses[id] == s
  }

  /** How many runs are in a status. */
  function Count(statuses: map<RunId, RunStatus>, status: RunStatus): nat { |InStatus(statuses, status)| }

  /** Every gauge is its value before bootstrap plus the number of runs in its status. */
  ghost predicate Tallies(base: Gauges, c: Collector) {
    forall s :: Read(c.gauges, s) == Read(base, s) + Count(c.statuses, s)
  }

  lemma CountAfterRemove(m: map<RunId, RunStatus>, id: RunId, s: RunStatus)
    ensures Count(m - {id}, s) == Count(m, s) - if id in m && m[id] == s then 1 else 0
  {
    if id in m && m[id] == s {
      assert InStatus(m, s) == InStatus(m - {id}, s) + {id};
    } else {
      assert InStatus(m, s) == InStatus(m - {id}, s);
    }
  }

  lemma CountAfterPut(m: map<RunId, RunStatus>, id: RunId, status: RunStatus, s: RunStatus)
    ensures Count(m[id := status], s) == Count(m - {id}, s) + if status == s then 1 else 0
  {
    var m' := m[id := status];
    assert m' - {id} == m - {id};
    CountAfterRemove(m', id, s);
  }

  lemma UpdateKeepsTally(base: Gauges, c: Collector, e: Change<RunId, RunStatus>)
    requires Tallies(base, c)
    ensures Tallies(base, Update(c, e))
  {
    forall s ensures Read(Update(c, e).gauges, s) == Read(base, s) + Count(Update(c, e).statuses, s) {
      CountAfterRemove(c.statuses, e.payload.key, s);
      CountAfterPut(c.statuses, e.payload.key, e.payload.value, s);
    }
  }

  lemma PutNewTallies(base: Gauges, c: Collector, id: RunId, status: RunStatus)
    requires Tallies(base, c) && id !in c.statuses
    ensures Tallies(base, Collector(c.statuses[id := status], Add(c.gauges, status, 1)))
  {
    var c' := Collector(c.statuses[id := status], Add(c.gauges, status, 1));
    forall s ensures Read(c'.gauges, s) == Read(base, s) + Count(c'.statuses, s) {
      assert c.statuses - {id} == c.statuses;
      CountAfterPut(c.statuses, id, status, s);
    }
  }

  lemma {:induction false} BootstrapTallies(g: Gauges, rows: seq<(RunId, RunStatus)>)
    requires forall i, j :: 0 <= i < j < |rows| ==> rows[i].0 != rows[j].0
    ensures Tallies(g, Bootstrap(g, rows)) && Holds(AnyStatus, Bootstrap(g, rows).statuses, rows)
  {
    if rows != [] {
      var n := |rows| - 1;
      BootstrapTallies(g, rows[..n]);
      var c := Bootstrap(g, rows[..n]);
      HoldsOneMore(AnyStatus, c.statuses, rows, n);
      PutNewTallies(g, c, rows[n].0, rows[n].1);
    } else {
      forall s ensures Count(map[], s) == 0 { assert InStatus(map[], s) == {}; }
    }
  }

  lemma BootstrapHoldsTable(g: Gauges, rows: seq<(RunId, RunStatus)>, table: map<RunId, RunStatus>)
    requires Lists(rows, table)
    ensures Bootstrap(g, rows).statuses == table
    ensures Tallies(g, Bootstrap(g, rows))
  {
    BootstrapTallies(g, rows);
    HoldsTheTable(AnyStatus, Bootstrap(g, rows).statuses, rows, table);
    assert Visible(AnyStatus, table) == table;
  }

  /* ---------- Instantiating the snapshot argument ---------- */

  function Record(m: map<RunId, RunStatus>, e: Change<RunId, RunStatus>): map<RunId, RunStatus> {
    Update(Collector(m, map[]), e).statuses
  }

  /** The collector follows every run. */
  predicate AnyStatus(s: RunStatus) { true }

  lemma RecordIsFaithful()
    ensures Faithful(Record, AnyStatus)
  {
  }

  lemma {:induction false} UpdatesFollowReplay(base: Gauges, c: Collector, es: seq<Change<RunId, RunStatus>>)
    requires Tallies(base, c)
    ensures Updates(c, es).statuses == Replay(Record, c.statuses, es)
    ensures Tallies(base, Updates(c, es))
  {
    if es != [] {
      UpdatesFollowReplay(base, c, es[..|es| - 1]);
      UpdateKeepsTally(base, Updates(c, es[..|es| - 1]), es[|es| - 1]);
    }
  }

  /* ---------- Main results ---------- */

  lemma BootstrapThenUpdates(table: map<RunId, RunStatus>, base: Gauges, rows: seq<(RunId, RunStatus)>,
                             es: seq<Change<RunId, RunStatus>>)
    requires Lists(rows, table)
    ensures Updates(Bootstrap(base, rows), es).statuses == Replay(Record, table, es)
    ensures Tallies(base, Updates(Bootstrap(base, rows), es))
  {
    BootstrapHoldsTable(base, rows, table);
    UpdatesFollowReplay(base, Bootstrap(base, rows), es);
  }

  lemma EveryRowVisible(table: map<RunId, RunStatus>)
    ensures Visible(AnyStatus, table) == table
  {
  }

  /** What the collector makes of the runs it has been told about: the statuses it shows are
      its view, and every gauge exceeds its value before bootstrap by the number of runs that
      it shows in that status, missed changes or not. */
  lemma GaugesCountTheView(cap: nat, actions: seq<LiveView.Action<RunId, RunStatus>>,
                           base: Gauges, rows: seq<(RunId, RunStatus)>, n: nat)
    requires var s := LiveView.Run(cap, Record, AnyStatus, actions);
             && LiveView.HasRead(s, n) && s.consumer.at <= |s.hist|
             && Lists(rows, Table(s.hist[..s.consumer.at]))
    ensures var s := LiveView.Run(cap, Record, AnyStatus, actions);
            var c := Updates(Bootstrap(base, rows), s.broker.chans[s.consumer.ch].received);
            c.statuses == s.consumer.view && Tallies(base, c)
  {
    LiveView.ReceivedIsRelayed(cap, Record, AnyStatus, actions, n);
    var s := LiveView.Run(cap, Record, AnyStatus, actions);
    BootstrapThenUpdates(Table(s.hist[..s.consumer.at]), base, rows, s.broker.chans[s.consumer.ch].received);
    EveryRowVisible(Table(s.hist[..s.consumer.at]));
  }

  /** End to end: in every reachable state of the system, a collector that bootstrapped
      from any listing of its snapshot and then handled what it received (at least up to
      the snapshot) knows the status of exactly the runs in the table at that point, and
      every gauge exceeds its value before bootstrap by the number of runs in its status,
      provided that no change since its subscription was missed. */
  lemma GaugesFollowTheTable(cap: nat, actions: seq<LiveView.Action<RunId, RunStatus>>,
                             base: Gauges, rows: seq<(RunId, RunStatus)>, n: nat)
    requires var s := LiveView.Run(cap, Record, AnyStatus, actions);
             && LiveView.HasRead(s, n) && s.consumer.at <= n
             && AllRelayed(Elements(s.relayed), s.consumer.from, n)
             && Lists(rows, Table(s.hist[..s.consumer.at]))
    ensures var s := LiveView.Run(cap, Record, AnyStatus, actions);
            var c := Updates(Bootstrap(base, rows), s.broker.chans[s.consumer.ch].received);
            && c.statuses == Table(s.hist[..n])
            && forall st :: Read(c.gauges, st) == Read(base, st) + Count(Table(s.hist[..n]), st)
  {
    GaugesCountTheView(cap, actions, base, rows, n);
    RecordIsFaithful();
    LiveView.ConvergedUnlessMissed(cap, Record, AnyStatus, actions, n);
    EveryRowVisible(Table(LiveView.Run(cap, Record, AnyStatus, actions).hist[..n]));
  }

  /* ---------- Missed changes ---------- */

  /** A run's entry after a change does not depend on the one before. */
  function Recorded(before: Option<RunStatus>, e: Change<RunId, RunStatus>): Option<RunStatus> {
    Target(AnyStatus, e)
  }

  lemma RecordIsRowLocal()
    ensures RowLocal(Record, Recorded)
  {
  }

  /** Change p is the last of its run from i to n, and was missed. */
  ghost predicate LastMissed(hist: seq<Change<RunId, RunStatus>>, relayed: set<nat>, i: nat, n: nat, p: nat)
    requires n <= |hist|
  {
    i <= p < n && p !in relayed && LastOf(hist, n, p, hist[p].payload.key)
  }

  ghost predicate LastOf(hist: seq<Change<RunId, RunStatus>>, n: nat, p: nat, id: RunId)
    requires n <= |hist|
  {
    p < n && hist[p].payload.key == id && forall q :: p < q < n ==> hist[q].payload.key != id
  }

  lemma {:induction false} LastChange(hist: seq<Change<RunId, RunStatus>>, n: nat, p: nat) returns (q: nat)
    requires p < n <= |hist|
    ensures p <= q && LastOf(hist, n, q, hist[p].payload.key)
  {
    if p == n - 1 || hist[n - 1].payload.key == hist[p].payload.key {
      q := n - 1;
    } else {
      q := LastChange(hist, n - 1, p);
    }
  }

  lemma {:induction false} TableSaysLast(hist: seq<Change<RunId, RunStatus>>, n: nat, p: nat, id: RunId)
    requires n <= |hist| && LastOf(hist, n, p, id)
    ensures Entry(Table(hist[..n]), id) == Target(AnyStatus, hist[p])
  {
    TablePrefix(hist, n - 1);
    if p < n - 1 { TableSaysLast(hist, n - 1, p, id); }
  }

  lemma {:induction false} RelayedLastIsSaid(hist: seq<Change<RunId, RunStatus>>, relayed: set<nat>, i: nat, n: nat, p: nat, id: RunId,
                                             start: Option<RunStatus>)
    requires n <= |hist| && i <= p && p in relayed && LastOf(hist, n, p, id)
    ensures RowReplay(Recorded, start, Kept(hist, relayed, i, n), id) == Target(AnyStatus, hist[p])
  {
    if p < n - 1 { RelayedLastIsSaid(hist, relayed, i, n - 1, p, id, start); }
  }

  /** With misses, the collector's statuses are the table exactly when, for each run whose
      last change since the subscription was missed, the last change that was relayed (or
      else the snapshot) says the same as the missed one. A run is put right by its next
      relayed change. */
  lemma StatusesRightIff(cap: nat, actions: seq<LiveView.Action<RunId, RunStatus>>, n: nat)
    requires var s := LiveView.Run(cap, Record, AnyStatus, actions);
             LiveView.HasRead(s, n) && s.consumer.from <= s.consumer.at <= n
    ensures var s := LiveView.Run(cap, Record, AnyStatus, actions);
            s.consumer.view == Table(s.hist[..n]) <==>
            forall p: nat :: LastMissed(s.hist, Elements(s.relayed), s.consumer.from, n, p) ==>
              RowReplay(Recorded, Entry(Table(s.hist[..s.consumer.at]), s.hist[p].payload.key),
                        s.broker.chans[s.consumer.ch].received, s.hist[p].payload.key)
              == Target(AnyStatus, s.hist[p])
  {
    RecordIsFaithful();
    RecordIsRowLocal();
    LiveView.ConvergedIff(cap, Record, Recorded, AnyStatus, actions, n);
    LiveView.ReceivedIsRelayed(cap, Record, AnyStatus, actions, n);
    var s := LiveView.Run(cap, Record, AnyStatus, actions);
    EveryRowVisible(Table(s.hist[..s.consumer.at]));
    EveryRowVisible(Table(s.hist[..n]));
    LastMissedDecide(s.hist, Elements(s.relayed), s.consumer.from, s.consumer.at, n);
  }

  lemma LastMissedDecide(hist: seq<Change<RunId, RunStatus>>, relayed: set<nat>, i: nat, j: nat, n: nat)
    requires i <= j <= n <= |hist|
    ensures MissedRowsAgree(Recorded, AnyStatus, hist, relayed, i, j, n) <==>
            forall p: nat :: LastMissed(hist, relayed, i, n, p) ==>
              RowReplay(Recorded, Entry(Table(hist[..j]), hist[p].payload.key), Kept(hist, relayed, i, n), hist[p].payload.key)
              == Target(AnyStatus, hist[p])
  {
    EveryRowVisible(Table(hist[..j]));
    EveryRowVisible(Table(hist[..n]));
    forall p: nat | LastMissed(hist, relayed, i, n, p)
      ensures MissedRow(hist, relayed, i, n, hist[p].payload.key)
      ensures Entry(Table(hist[..n]), hist[p].payload.key) == Target(AnyStatus, hist[p])
    {
      TableSaysLast(hist, n, p, hist[p].payload.key);
    }
    forall id | MissedRow(hist, relayed, i, n, id)
      ensures (exists p: nat :: LastMissed(hist, relayed, i, n, p) && hist[p].payload.key == id)
              || RowReplay(Recorded, Entry(Table(hist[..j]), id), Kept(hist, relayed, i, n), id) == Entry(Table(hist[..n]), id)
    {
      var p: nat :| i <= p < n && p !in relayed && hist[p].payload.key == id;
      var q := LastChange(hist, n, p);
      TableSaysLast(hist, n, q, id);
      if q in relayed { RelayedLastIsSaid(hist, relayed, i, n, q, id, Entry(Table(hist[..j]), id)); }
    }
  }

  /** The gauges are the true counts exactly when every gauge was zero before bootstrap,
      whatever has been handled since. */
  lemma GaugesAreCountsIffStartedAtZero(base: Gauges, c: Collector)
    requires Tallies(base, c)
    ensures (forall s :: Read(c.gauges, s) == Count(c.statuses, s)) <==> (forall s :: Read(base, s) == 0)
  {
    if forall s :: Read(c.gauges, s) == Count(c.statuses, s) {
      forall s ensures Read(base, s) == 0 {
        assert Read(c.gauges, s) == Read(base, s) + Count(c.statuses, s);
      }
    }
  }

  /** So a collector that is started a second time over a non-empty table counts twice. */
  lemma RestartCountsTwice(rows: seq<(RunId, RunStatus)>, table: map<RunId, RunStatus>, id: RunId)
    requires Lists(rows, table) && id in table
    ensures var again := Bootstrap(Bootstrap(map[], rows).gauges, rows);
            && again.statuses == table
            && Read(again.gauges, table[id]) == 2 * Count(table, table[id]) > Count(table, table[id])
  {
    var once := Bootstrap(map[], rows);
    BootstrapHoldsTable(map[], rows, table);
    BootstrapHoldsTable(once.gauges, rows, table);
    assert id in InStatus(table, table[id]);
    assert Read(once.gauges, table[id]) == Count(table, table[id]);
  }
}
