/**
The whole path from table to consumer as one state machine: transactions commit row
changes, the listener relays them to the broker in order, any number of other parties
use the broker, and one consumer subscribes, then reads a snapshot, then applies what it
receives (MetricsCollector.Start in internal/run/metrics.go, Notifier.Start in
internal/notifications/notifier.go). The listener (internal/sql/listener.go) does not
relay everything. When it loses its connection it disables the broker, and resumes past
the changes announced meanwhile; when it fails to look up an announced change it stops
and is started again without disabling the broker, so that subscribers stay attached;
and the broker ignores a change that it cannot decode.
 */
module LiveView {
  import opened Prelude
  import opened Broker
  import opened SnapshotReplay

  /** `from` is the position in the history at which the consumer subscribed and `at` the
      position at which it read its snapshot. */
  datatype Consumer<K, V> =
    | Idle
    | Subscribed(ch: ChanId, from: nat)
    | Live(ch: ChanId, from: nat, at: nat, view: map<K, V>)

  /** `cursor` is how far into the committed history the listener has got, and `relayed`
      the positions of the changes that the broker forwarded. */
  datatype System<K, V> = System(
    hist: seq<Change<K, V>>,
    cursor: nat,
    relayed: seq<nat>,
    broker: State<Row<K, V>>,
    consumer: Consumer<K, V>)

  /** `PassOver` is the listener starting anew, having stopped with or without disabling
      the broker: it listens from n changes further on. */
  datatype Action<K, V> =
    | Commit(change: Change<K, V>)
    | Relay(decodes: bool)
    | PassOver(n: nat)
    | Others(step: Step<Row<K, V>>)
    | Subscribing(id: ChanId)
    | Snapshot
    | Consume
    | Stop

  function ToSql<K, V>(e: Change<K, V>, decodes: bool): (r: SqlEvent<Row<K, V>>)
    ensures Decode(r) == if decodes then Some(e) else None
  {
    SqlEvent(match e.kind case Created => "INSERT" case Updated => "UPDATE" case Deleted => "DELETE",
             if decodes then Some(e.payload) else None, e.time)
  }

  /** Other parties cannot forward events or read the consumer's channel. */
  predicate Outsider<K, V>(consumer: Consumer<K, V>, step: Step<Row<K, V>>) {
    && !step.ForwardStep?
    && (step.ReceiveStep? ==> consumer.Idle? || consumer.ch != step.id)
  }

  function Act<K(==), V(==)>(cap: nat, f: (map<K, V>, Change<K, V>) -> map<K, V>, tracked: V -> bool,
                             s: System<K, V>, a: Action<K, V>): System<K, V>
  {
    match a
    case Commit(e) => if Legal(tracked, Table(s.hist), e) then s.(hist := s.hist + [e]) else s
    case Relay(decodes) =>
      if s.broker.enabled && s.broker.pending == {} && s.cursor < |s.hist|
      then s.(broker := Apply(cap, s.broker, ForwardStep(ToSql(s.hist[s.cursor], decodes))),
              relayed := if decodes then s.relayed + [s.cursor] else s.relayed,
              cursor := s.cursor + 1)
      else s
    case PassOver(n) => s.(cursor := Min(s.cursor + n, |s.hist|))
    case Others(step) => if Outsider(s.consumer, step) then s.(broker := Apply(cap, s.broker, step)) else s
    case Subscribing(id) =>
      if s.consumer.Idle? && s.broker.enabled && id !in s.broker.chans
      then s.(broker := Apply(cap, s.broker, SubscribeStep(id)), consumer := Subscribed(id, s.cursor))
      else s
    case Snapshot =>
      if s.consumer.Subscribed?
      then s.(consumer := Live(s.consumer.ch, s.consumer.from, |s.hist|, Visible(tracked, Table(s.hist))))
      else s
    case Consume =>
      if s.consumer.Live? && s.consumer.ch in s.broker.chans && s.broker.chans[s.consumer.ch].buffer != []
      then s.(broker := Apply(cap, s.broker, ReceiveStep(s.consumer.ch)),
              consumer := s.consumer.(view := f(s.consumer.view, s.broker.chans[s.consumer.ch].buffer[0])))
      else s
    case Stop => s.(consumer := Idle)
  }

  function Run<K(==), V(==)>(cap: nat, f: (map<K, V>, Change<K, V>) -> map<K, V>, tracked: V -> bool,
                             actions: seq<Action<K, V>>): System<K, V>
  {
    if actions == [] then System([], 0, [], Init(), Idle)
    else Act(cap, f, tracked, Run(cap, f, tracked, actions[..|actions| - 1]), actions[|actions| - 1])
  }

  /* ---------- What every action keeps ---------- */

  /** The broker's log is what was relayed, in the order of the history. */
  ghost predicate RelayOk<K, V>(s: System<K, V>) {
    && s.cursor <= |s.hist|
    && |s.relayed| == |s.broker.log|
    && (forall i :: 0 <= i < |s.relayed| ==> s.relayed[i] < s.cursor && s.broker.log[i] == s.hist[s.relayed[i]])
    && (forall i, j :: 0 <= i < j < |s.relayed| ==> s.relayed[i] < s.relayed[j])
  }

  /** The consumer's channel starts with the first change relayed from `from` on. */
  ghost predicate StartOk<K, V>(s: System<K, V>, ch: ChanId, from: nat) {
    && ch in s.broker.chans
    && from <= s.cursor && s.broker.chans[ch].start <= |s.relayed|
    && forall i :: 0 <= i < |s.relayed| ==> (i < s.broker.chans[ch].start <==> s.relayed[i] < from)
  }

  /** The consumer's view is its snapshot brought forward by what it has received. */
  ghost predicate ConsumerOk<K, V>(f: (map<K, V>, Change<K, V>) -> map<K, V>, tracked: V -> bool, s: System<K, V>) {
    match s.consumer
    case Idle => true
    case Subscribed(ch, from) => StartOk(s, ch, from) && s.broker.chans[ch].received == []
    case Live(ch, from, at, view) =>
      && StartOk(s, ch, from) && from <= at <= |s.hist|
      && view == Replay(f, Visible(tracked, Table(s.hist[..at])), s.broker.chans[ch].received)
  }

  ghost predicate SystemInv<K, V>(cap: nat, f: (map<K, V>, Change<K, V>) -> map<K, V>, tracked: V -> bool, s: System<K, V>) {
    && Inv(cap, s.broker)
    && LegalHistory(tracked, s.hist)
    && RelayOk(s)
    && ConsumerOk(f, tracked, s)
  }

  lemma CommitKeepsConsumer<K, V>(f: (map<K, V>, Change<K, V>) -> map<K, V>, tracked: V -> bool, s: System<K, V>, e: Change<K, V>)
    requires ConsumerOk(f, tracked, s)
    ensures ConsumerOk(f, tracked, s.(hist := s.hist + [e]))
  {
    if s.consumer.Live? { assert (s.hist + [e])[..s.consumer.at] == s.hist[..s.consumer.at]; }
  }

  lemma RelayKeepsConsumer<K, V>(cap: nat, f: (map<K, V>, Change<K, V>) -> map<K, V>, tracked: V -> bool, s: System<K, V>, decodes: bool)
    requires ConsumerOk(f, tracked, s)
    ensures ConsumerOk(f, tracked, Act(cap, f, tracked, s, Relay(decodes)))
  {
    if !s.consumer.Idle? {
      var s' := Act(cap, f, tracked, s, Relay(decodes));
      assert StartOk(s', s.consumer.ch, s.consumer.from);
    }
  }

  /** What an outsider's step cannot do to the consumer's channel. */
  lemma OthersLeaveTheStream<K, V>(cap: nat, b: State<Row<K, V>>, step: Step<Row<K, V>>, ch: ChanId)
    requires ch in b.chans && !step.ForwardStep? && (step.ReceiveStep? ==> step.id != ch)
    ensures var b' := Apply(cap, b, step);
            && b'.log == b.log
            && ch in b'.chans
            && b'.chans[ch] == b.chans[ch].(status := b'.chans[ch].status)
  {
  }

  lemma OthersKeepConsumer<K, V>(cap: nat, f: (map<K, V>, Change<K, V>) -> map<K, V>, tracked: V -> bool, s: System<K, V>,
                                 step: Step<Row<K, V>>)
    requires ConsumerOk(f, tracked, s) && Outsider(s.consumer, step)
    ensures ConsumerOk(f, tracked, s.(broker := Apply(cap, s.broker, step)))
  {
    if !s.consumer.Idle? { OthersLeaveTheStream(cap, s.broker, step, s.consumer.ch); }
  }

  lemma ConsumeKeepsConsumer<K, V>(cap: nat, f: (map<K, V>, Change<K, V>) -> map<K, V>, tracked: V -> bool, s: System<K, V>)
    requires ConsumerOk(f, tracked, s)
    ensures ConsumerOk(f, tracked, Act(cap, f, tracked, s, Consume))
  {
    if s.consumer.Live? && s.broker.chans[s.consumer.ch].buffer != [] {
      var c := s.broker.chans[s.consumer.ch];
      ReplayOneMore(f, Visible(tracked, Table(s.hist[..s.consumer.at])), c.received, c.buffer[0]);
    }
  }

  lemma SnapshotKeepsConsumer<K, V>(cap: nat, f: (map<K, V>, Change<K, V>) -> map<K, V>, tracked: V -> bool, s: System<K, V>)
    requires ConsumerOk(f, tracked, s) && s.cursor <= |s.hist|
    ensures ConsumerOk(f, tracked, Act(cap, f, tracked, s, Snapshot))
  {
    assert s.hist[..|s.hist|] == s.hist;
  }

  lemma SubscribeKeepsConsumer<K, V>(cap: nat, f: (map<K, V>, Change<K, V>) -> map<K, V>, tracked: V -> bool, s: System<K, V>, id: ChanId)
    requires RelayOk(s) && ConsumerOk(f, tracked, s)
    ensures ConsumerOk(f, tracked, Act(cap, f, tracked, s, Subscribing(id)))
  {
  }

  lemma ActKeepsConsumer<K, V>(cap: nat, f: (map<K, V>, Change<K, V>) -> map<K, V>, tracked: V -> bool, s: System<K, V>, a: Action<K, V>)
    requires RelayOk(s) && ConsumerOk(f, tracked, s)
    ensures ConsumerOk(f, tracked, Act(cap, f, tracked, s, a))
  {
    match a
    case Commit(e) => CommitKeepsConsumer(f, tracked, s, e);
    case Relay(decodes) => RelayKeepsConsumer(cap, f, tracked, s, decodes);
    case PassOver(n) =>
    case Others(step) => if Outsider(s.consumer, step) { OthersKeepConsumer(cap, f, tracked, s, step); }
    case Subscribing(id) => SubscribeKeepsConsumer(cap, f, tracked, s, id);
    case Snapshot => SnapshotKeepsConsumer(cap, f, tracked, s);
    case Consume => ConsumeKeepsConsumer(cap, f, tracked, s);
    case Stop =>
  }

  lemma ActKeepsBroker<K, V>(cap: nat, f: (map<K, V>, Change<K, V>) -> map<K, V>, tracked: V -> bool, s: System<K, V>, a: Action<K, V>)
    requires Inv(cap, s.broker)
    ensures Inv(cap, Act(cap, f, tracked, s, a).broker)
  {
    match a
    case Relay(decodes) => if s.cursor < |s.hist| { ApplyKeepsInv(cap, s.broker, ForwardStep(ToSql(s.hist[s.cursor], decodes))); }
    case Others(step) => ApplyKeepsInv(cap, s.broker, step);
    case Subscribing(id) => ApplyKeepsInv(cap, s.broker, SubscribeStep(id));
    case Consume => if s.consumer.Live? { ApplyKeepsInv(cap, s.broker, ReceiveStep(s.consumer.ch)); }
    case _ =>
  }

  lemma ActKeepsRelay<K, V>(cap: nat, f: (map<K, V>, Change<K, V>) -> map<K, V>, tracked: V -> bool, s: System<K, V>, a: Action<K, V>)
    requires RelayOk(s)
    ensures RelayOk(Act(cap, f, tracked, s, a))
  {
    match a
    case Relay(decodes) => RelayKeepsRelay(cap, f, tracked, s, decodes);
    case _ =>
  }

  lemma RelayKeepsRelay<K, V>(cap: nat, f: (map<K, V>, Change<K, V>) -> map<K, V>, tracked: V -> bool, s: System<K, V>, decodes: bool)
    requires RelayOk(s)
    ensures RelayOk(Act(cap, f, tracked, s, Relay(decodes)))
  {
    var s' := Act(cap, f, tracked, s, Relay(decodes));
    if s'.cursor > s.cursor && decodes {
      var e := s.hist[s.cursor];
      assert s'.broker.log == s.broker.log + [e] && s'.relayed == s.relayed + [s.cursor];
    }
  }

  lemma {:induction false} RunKeeps<K, V>(cap: nat, f: (map<K, V>, Change<K, V>) -> map<K, V>, tracked: V -> bool, actions: seq<Action<K, V>>)
    ensures SystemInv(cap, f, tracked, Run(cap, f, tracked, actions))
  {
    if actions != [] {
      RunKeeps(cap, f, tracked, actions[..|actions| - 1]);
      var s, a := Run(cap, f, tracked, actions[..|actions| - 1]), actions[|actions| - 1];
      ActKeepsBroker(cap, f, tracked, s, a);
      if a.Commit? && Legal(tracked, Table(s.hist), a.change) { LegalOneMore(tracked, s.hist, a.change); }
      ActKeepsRelay(cap, f, tracked, s, a);
      ActKeepsConsumer(cap, f, tracked, s, a);
    }
  }

  /* ---------- How far the consumer has read ---------- */

  /** The consumer has read up to position n: it has received everything relayed from its
      subscription up to there, and nothing beyond. */
  ghost predicate HasRead<K, V>(s: System<K, V>, n: nat) {
    && s.consumer.Live? && s.consumer.ch in s.broker.chans
    && s.consumer.from <= n <= s.cursor <= |s.hist|
    && var c := s.broker.chans[s.consumer.ch];
       forall i :: c.start <= i < |s.relayed| ==> (i < c.start + |c.received| <==> s.relayed[i] < n)
  }

  /** There is always such a position: that after the last change received. */
  lemma ReadSomewhere<K, V>(cap: nat, f: (map<K, V>, Change<K, V>) -> map<K, V>, tracked: V -> bool,
                            actions: seq<Action<K, V>>) returns (n: nat)
    requires Run(cap, f, tracked, actions).consumer.Live?
    ensures HasRead(Run(cap, f, tracked, actions), n)
  {
    RunKeeps(cap, f, tracked, actions);
    var s := Run(cap, f, tracked, actions);
    var c := s.broker.chans[s.consumer.ch];
    assert ChannelOk(cap, s.broker, s.consumer.ch);
    n := if c.received == [] then s.consumer.from else s.relayed[c.start + |c.received| - 1] + 1;
  }

  /** Still subscribed, with nothing left to read and no removal pending. */
  ghost predicate Drained<K, V>(s: System<K, V>) {
    && s.consumer.Live?
    && s.consumer.ch in s.broker.subs && s.consumer.ch !in s.broker.pending
    && s.consumer.ch in s.broker.chans && s.broker.chans[s.consumer.ch].buffer == []
  }

  /** A drained consumer has read as far as the listener has got. */
  lemma DrainedHasRead<K, V>(cap: nat, f: (map<K, V>, Change<K, V>) -> map<K, V>, tracked: V -> bool, actions: seq<Action<K, V>>)
    requires Drained(Run(cap, f, tracked, actions))
    ensures HasRead(Run(cap, f, tracked, actions), Run(cap, f, tracked, actions).cursor)
  {
    RunKeeps(cap, f, tracked, actions);
    var s := Run(cap, f, tracked, actions);
    assert ChannelOk(cap, s.broker, s.consumer.ch);
  }

  /** A stretch of the log is what was relayed of the stretch of history it spans. */
  lemma {:induction false} LogIsKept<K, V>(s: System<K, V>, lo: nat, hi: nat, from: nat, n: nat)
    requires RelayOk(s) && lo <= hi <= |s.relayed| && from <= n <= |s.hist|
    requires forall i :: 0 <= i < |s.relayed| ==> (i < lo <==> s.relayed[i] < from)
    requires forall i :: lo <= i < |s.relayed| ==> (i < hi <==> s.relayed[i] < n)
    ensures Kept(s.hist, Elements(s.relayed), from, n) == s.broker.log[lo..hi]
    decreases n
  {
    if n == from {
      if hi > lo { assert false; }
    } else if n - 1 in Elements(s.relayed) {
      assert s.relayed[hi - 1] == n - 1 by {
        var i :| 0 <= i < |s.relayed| && s.relayed[i] == n - 1;
        assert lo <= i < hi && s.relayed[hi - 1] < n;
      }
      LogIsKept(s, lo, hi - 1, from, n - 1);
      assert s.broker.log[lo..hi] == s.broker.log[lo..hi - 1] + [s.broker.log[hi - 1]];
    } else {
      assert forall i :: 0 <= i < |s.relayed| ==> s.relayed[i] in Elements(s.relayed);
      LogIsKept(s, lo, hi, from, n - 1);
    }
  }

  /* ---------- Main results ---------- */

  /** What a consumer that has read up to n has received is what was relayed of the history
      from its subscription, which is no later than its snapshot; its view is the snapshot
      brought forward by that. */
  lemma ReceivedIsRelayed<K, V>(cap: nat, f: (map<K, V>, Change<K, V>) -> map<K, V>, tracked: V -> bool,
                                actions: seq<Action<K, V>>, n: nat)
    requires HasRead(Run(cap, f, tracked, actions), n)
    ensures var s := Run(cap, f, tracked, actions);
            var es := s.broker.chans[s.consumer.ch].received;
            && s.consumer.from <= s.consumer.at <= |s.hist| && LegalHistory(tracked, s.hist)
            && es == Kept(s.hist, Elements(s.relayed), s.consumer.from, n)
            && s.consumer.view == Replay(f, Visible(tracked, Table(s.hist[..s.consumer.at])), es)
  {
    RunKeeps(cap, f, tracked, actions);
    var s := Run(cap, f, tracked, actions);
    var c := s.broker.chans[s.consumer.ch];
    assert ChannelOk(cap, s.broker, s.consumer.ch);
    var hi := c.start + |c.received|;
    LogIsKept(s, c.start, hi, s.consumer.from, n);
    assert c.received == c.Delivered()[..|c.received|];
  }

  /** It has received the history itself exactly when no change since its subscription was
      passed over or failed to decode. */
  lemma ReceivedIsHistoryIff<K, V>(cap: nat, f: (map<K, V>, Change<K, V>) -> map<K, V>, tracked: V -> bool,
                                   actions: seq<Action<K, V>>, n: nat)
    requires HasRead(Run(cap, f, tracked, actions), n)
    ensures var s := Run(cap, f, tracked, actions);
            s.broker.chans[s.consumer.ch].received == s.hist[s.consumer.from..n]
            <==> AllRelayed(Elements(s.relayed), s.consumer.from, n)
  {
    ReceivedIsRelayed(cap, f, tracked, actions, n);
    var s := Run(cap, f, tracked, actions);
    KeptIsAllIff(s.hist, Elements(s.relayed), s.consumer.from, n);
  }

  /** In every reachable state, a consumer that has read at least up to its snapshot shows
      every row none of whose changes since its subscription was missed as the table has it;
      if nothing was missed, its view is the table. */
  lemma ConvergedUnlessMissed<K(!new), V(!new)>(cap: nat, f: (map<K, V>, Change<K, V>) -> map<K, V>, tracked: V -> bool,
                                                actions: seq<Action<K, V>>, n: nat)
    requires Faithful(f, tracked)
    requires var s := Run(cap, f, tracked, actions); HasRead(s, n) && s.consumer.at <= n
    ensures var s := Run(cap, f, tracked, actions);
            var table := Visible(tracked, Table(s.hist[..n]));
            && (forall k :: !MissedRow(s.hist, Elements(s.relayed), s.consumer.from, n, k) ==> Entry(s.consumer.view, k) == Entry(table, k))
            && (AllRelayed(Elements(s.relayed), s.consumer.from, n) ==> s.consumer.view == table)
  {
    ReceivedIsRelayed(cap, f, tracked, actions, n);
    var s := Run(cap, f, tracked, actions);
    var relayed, from, at := Elements(s.relayed), s.consumer.from, s.consumer.at;
    forall k | !MissedRow(s.hist, relayed, from, n, k)
      ensures Entry(s.consumer.view, k) == Entry(Visible(tracked, Table(s.hist[..n])), k)
    {
      UnmissedRowIsRight(f, tracked, s.hist, relayed, from, at, n, k);
    }
    if AllRelayed(relayed, from, n) { NothingMissedIsRight(f, tracked, s.hist, relayed, from, at, n); }
  }

  /** With misses, the view is the table exactly when each row with missed changes comes to
      the same by its relayed changes alone. */
  lemma ConvergedIff<K(!new), V(!new)>(cap: nat, f: (map<K, V>, Change<K, V>) -> map<K, V>, g: (Option<V>, Change<K, V>) -> Option<V>,
                                       tracked: V -> bool, actions: seq<Action<K, V>>, n: nat)
    requires Faithful(f, tracked) && RowLocal(f, g)
    requires var s := Run(cap, f, tracked, actions); HasRead(s, n) && s.consumer.from <= s.consumer.at <= n
    ensures var s := Run(cap, f, tracked, actions);
            s.consumer.view == Visible(tracked, Table(s.hist[..n]))
            <==> MissedRowsAgree(g, tracked, s.hist, Elements(s.relayed), s.consumer.from, s.consumer.at, n)
  {
    ReceivedIsRelayed(cap, f, tracked, actions, n);
    var s := Run(cap, f, tracked, actions);
    RightIffMissedRowsAgree(f, g, tracked, s.hist, Elements(s.relayed), s.consumer.from, s.consumer.at, n);
  }

  /** Once the listener is through with the history and the channel is drained, a consumer
      that is still subscribed (and not about to be dropped) holds the current table, unless
      a change since its subscription was missed. */
  lemma CurrentWhenDrained<K(!new), V(!new)>(cap: nat, f: (map<K, V>, Change<K, V>) -> map<K, V>, tracked: V -> bool,
                                             actions: seq<Action<K, V>>)
    requires Faithful(f, tracked)
    requires var s := Run(cap, f, tracked, actions);
             && Drained(s) && s.cursor == |s.hist|
             && AllRelayed(Elements(s.relayed), s.consumer.from, |s.hist|)
    ensures var s := Run(cap, f, tracked, actions);
            s.consumer.view == Visible(tracked, Table(s.hist))
  {
    DrainedHasRead(cap, f, tracked, actions);
    var s := Run(cap, f, tracked, actions);
    ReceivedIsRelayed(cap, f, tracked, actions, s.cursor);
    ConvergedUnlessMissed(cap, f, tracked, actions, s.cursor);
    assert s.hist[..s.cursor] == s.hist;
  }

  /** The listener does relay: with the broker enabled and no removal pending, the next change
      goes to every subscriber that has room. */
  lemma RelayDelivers<K, V>(cap: nat, f: (map<K, V>, Change<K, V>) -> map<K, V>, tracked: V -> bool, actions: seq<Action<K, V>>, ch: ChanId)
    requires var s := Run(cap, f, tracked, actions);
             && s.broker.enabled && s.broker.pending == {} && s.cursor < |s.hist|
             && ch in s.broker.subs && ch in s.broker.chans && |s.broker.chans[ch].buffer| < cap
    ensures var s, s' := Run(cap, f, tracked, actions), Run(cap, f, tracked, actions + [Relay(true)]);
            && s'.cursor == s.cursor + 1 && s'.relayed == s.relayed + [s.cursor] && s'.hist == s.hist
            && ch in s'.broker.subs && ch in s'.broker.chans
            && s'.broker.chans[ch] == s.broker.chans[ch].(buffer := s.broker.chans[ch].buffer + [s.hist[s.cursor]])
            && s'.consumer == s.consumer
  {
    assert (actions + [Relay(true)])[..|actions|] == actions;
  }

  /** And the consumer does apply what it receives, oldest first. */
  lemma ConsumeApplies<K, V>(cap: nat, f: (map<K, V>, Change<K, V>) -> map<K, V>, tracked: V -> bool, actions: seq<Action<K, V>>)
    requires var s := Run(cap, f, tracked, actions);
             s.consumer.Live? && s.consumer.ch in s.broker.chans && s.broker.chans[s.consumer.ch].buffer != []
    ensures var s, s' := Run(cap, f, tracked, actions), Run(cap, f, tracked, actions + [Consume]);
            var c := s.broker.chans[s.consumer.ch];
            && s'.consumer == s.consumer.(view := f(s.consumer.view, c.buffer[0]))
            && s'.broker == s.broker.(chans := s.broker.chans[s.consumer.ch := c.(buffer := c.buffer[1..], received := c.received + [c.buffer[0]])])
  {
    assert (actions + [Consume])[..|actions|] == actions;
  }

  /** Starting anew, the listener skips as many changes as it missed, and nobody notices. */
  lemma PassOverSkips<K, V>(cap: nat, f: (map<K, V>, Change<K, V>) -> map<K, V>, tracked: V -> bool, actions: seq<Action<K, V>>, n: nat)
    ensures var s := Run(cap, f, tracked, actions);
            Run(cap, f, tracked, actions + [PassOver(n)]) == s.(cursor := if s.cursor + n < |s.hist| then s.cursor + n else |s.hist|)
  {
    assert (actions + [PassOver(n)])[..|actions|] == actions;
  }

  /** Other parties take their steps, and nothing but the broker changes. */
  lemma OthersTakeSteps<K, V>(cap: nat, f: (map<K, V>, Change<K, V>) -> map<K, V>, tracked: V -> bool, actions: seq<Action<K, V>>,
                              step: Step<Row<K, V>>)
    requires !step.ForwardStep?
    requires var s := Run(cap, f, tracked, actions); step.ReceiveStep? ==> s.consumer.Idle? || s.consumer.ch != step.id
    ensures var s := Run(cap, f, tracked, actions);
            Run(cap, f, tracked, actions + [Others(step)]) == s.(broker := Apply(cap, s.broker, step))
  {
    assert (actions + [Others(step)])[..|actions|] == actions;
  }

  /** A consumer that stops can start anew on a channel of its own, with the listener's next change. */
  lemma StartsAnew<K, V>(cap: nat, f: (map<K, V>, Change<K, V>) -> map<K, V>, tracked: V -> bool, actions: seq<Action<K, V>>, id: ChanId)
    requires var s := Run(cap, f, tracked, actions); s.broker.enabled && id !in s.broker.chans
    ensures var s, s' := Run(cap, f, tracked, actions), Run(cap, f, tracked, actions + [Stop] + [Subscribing(id)]);
            && s'.consumer == Subscribed(id, s.cursor) && id in s'.broker.subs && id in s'.broker.chans
            && s'.broker.chans[id] == Channel([], Open, |s.broker.log|, [])
            && s'.hist == s.hist && s'.cursor == s.cursor && s'.relayed == s.relayed
  {
    var stopped := actions + [Stop];
    assert stopped[..|actions|] == actions && (stopped + [Subscribing(id)])[..|stopped|] == stopped;
  }

  /** The change makes a difference to somebody who follows the table. */
  predicate Shows<K, V(==)>(tracked: V -> bool, db: map<K, V>, e: Change<K, V>)
    requires Legal(tracked, db, e)
  {
    match e.kind
    case Created => tracked(e.payload.value)
    case Updated => tracked(e.payload.value) && db[e.payload.key] != e.payload.value
    case Deleted => tracked(db[e.payload.key])
  }

  /** Whatever the consumer, if its view was up to date then passing over the next change
      leaves it so exactly when that change does not show. */
  lemma PassedOverUnnoticedIff<K(!new), V(!new)>(cap: nat, f: (map<K, V>, Change<K, V>) -> map<K, V>, tracked: V -> bool,
                                                 actions: seq<Action<K, V>>)
    requires var s := Run(cap, f, tracked, actions);
             && s.consumer.Live? && s.cursor < |s.hist|
             && s.consumer.view == Visible(tracked, Table(s.hist[..s.cursor]))
    ensures LegalHistory(tracked, Run(cap, f, tracked, actions).hist)
    ensures var s := Run(cap, f, tracked, actions);
            var s' := Run(cap, f, tracked, actions + [PassOver(1)]);
            && s'.cursor == s.cursor + 1 <= |s'.hist| && LegalAt(tracked, s.hist, s.cursor)
            && s'.consumer.Live? && s'.broker == s.broker
            && (s'.consumer.view == Visible(tracked, Table(s'.hist[..s'.cursor]))
                <==> !Shows(tracked, Table(s.hist[..s.cursor]), s.hist[s.cursor]))
  {
    RunKeeps(cap, f, tracked, actions);
    var s := Run(cap, f, tracked, actions);
    assert (actions + [PassOver(1)])[..|actions|] == actions;
    var e, db := s.hist[s.cursor], Table(s.hist[..s.cursor]);
    assert LegalAt(tracked, s.hist, s.cursor);
    TablePrefix(s.hist, s.cursor);
    var before, after := Visible(tracked, db), Visible(tracked, ApplyChange(db, e));
    forall k | k != e.payload.key ensures Entry(before, k) == Entry(after, k) {}
    if Shows(tracked, db, e) {
      assert Entry(before, e.payload.key) != Entry(after, e.payload.key);
    } else {
      SameEntries(before, after);
    }
  }

  /** So whenever a consumer is subscribed, drained and up to date, a change that shows can
      be committed and passed over, and leaves it subscribed, drained and wrong. */
  lemma DrainedButStale<K(!new), V(!new)>(cap: nat, f: (map<K, V>, Change<K, V>) -> map<K, V>, tracked: V -> bool,
                                          actions: seq<Action<K, V>>, e: Change<K, V>)
    requires var s := Run(cap, f, tracked, actions);
             && Drained(s) && s.cursor == |s.hist| && s.consumer.view == Visible(tracked, Table(s.hist))
             && Legal(tracked, Table(s.hist), e) && Shows(tracked, Table(s.hist), e)
    ensures var s := Run(cap, f, tracked, actions + [Commit(e)] + [PassOver(1)]);
            && Drained(s) && s.cursor == |s.hist|
            && s.consumer.view != Visible(tracked, Table(s.hist))
  {
    var s, s' := Run(cap, f, tracked, actions), Run(cap, f, tracked, actions + [Commit(e)]);
    assert (actions + [Commit(e)])[..|actions|] == actions;
    assert s'.hist[..s'.cursor] == s.hist && s'.hist[s'.cursor] == e;
    PassedOverUnnoticedIff(cap, f, tracked, actions + [Commit(e)]);
    var s2 := Run(cap, f, tracked, actions + [Commit(e)] + [PassOver(1)]);
    assert (actions + [Commit(e)] + [PassOver(1)])[..|actions| + 1] == actions + [Commit(e)];
    assert s2.hist[..s2.cursor] == s2.hist;
  }

  /** A consumer of an empty table is in that position as soon as it has started. */
  lemma StartsDrained<K(!new), V(!new)>(cap: nat, f: (map<K, V>, Change<K, V>) -> map<K, V>, tracked: V -> bool)
    ensures var s := Run<K, V>(cap, f, tracked, [Subscribing(0), Snapshot]);
            Drained(s) && s.cursor == |s.hist| == 0 && s.consumer.view == Visible(tracked, Table(s.hist))
  {
    var a: seq<Action<K, V>> := [Subscribing(0), Snapshot];
    assert a[..1] == [Subscribing(0)] && a[..1][..0] == [];
    assert Run(cap, f, tracked, a[..1]) == Act(cap, f, tracked, Run(cap, f, tracked, []), Subscribing(0));
  }
}
