/**
The event broker (internal/pubsub/broker.go) as a state machine over its atomic
sections. Each section that the source runs under the broker's mutex is one step;
receiving from a channel is a step of its own, so every interleaving of
subscribers, context cancellations, forwards and drops is a sequence of steps.
 */
module Broker {
  import opened Prelude

  type ChanId = nat

  datatype EventType = Created | Updated | Deleted

  datatype Event<T> = Event(kind: EventType, payload: T, time: int)

  /** A row change reported by the database; `record` is None when it cannot be decoded. */
  datatype SqlEvent<T> = SqlEvent(action: string, record: Option<T>, time: int)

  /** Why a channel is no longer open. */
  datatype Status = Open | Unsubscribed | Dropped | Disabled

  /** A subscription's channel: `start` is how many events had been forwarded when it
      was made, and `received` is what the subscriber has taken out of it so far. */
  datatype Channel<T> = Channel(buffer: seq<Event<T>>, status: Status, start: nat, received: seq<Event<T>>)
  {
    function Delivered(): seq<Event<T>> { received + buffer }
  }

  /** `pending` holds the full subscribers that a Forward has collected but not yet
      removed; `log` is every event forwarded so far; `panicked` records a send on, or
      a second close of, a closed channel. */
  datatype State<T> = State(
    subs: set<ChanId>,
    enabled: bool,
    chans: map<ChanId, Channel<T>>,
    pending: set<ChanId>,
    log: seq<Event<T>>,
    panicked: bool)

  function Init<T>(): State<T> { State({}, true, map[], {}, [], false) }

  /** The event that Forward builds from a database event, if it builds one. */
  function Decode<T>(e: SqlEvent<T>): Option<Event<T>> {
    if e.record.None? then None
    else if e.action == "INSERT" then Some(Event(Created, e.record.value, e.time))
    else if e.action == "UPDATE" then Some(Event(Updated, e.record.value, e.time))
    else if e.action == "DELETE" then Some(Event(Deleted, e.record.value, e.time))
    else None
  }

  function Subscribe<T>(s: State<T>, id: ChanId): State<T>
    requires id !in s.chans
  {
    if !s.enabled then s
    else s.(subs := s.subs + {id}, chans := s.chans[id := Channel([], Open, |s.log|, [])])
  }

  /** unsubscribeWithoutLock: closes the channel and forgets it, once. */
  function Unsubscribe<T>(s: State<T>, id: ChanId, why: Status): State<T> {
    if id !in s.subs || id !in s.chans then s
    else s.(subs := s.subs - {id},
            chans := s.chans[id := s.chans[id].(status := why)],
            panicked := s.panicked || s.chans[id].status != Open)
  }

  function Disable<T>(s: State<T>): State<T> {
    s.(enabled := false,
       subs := {},
       chans := map id | id in s.chans :: if id in s.subs then s.chans[id].(status := Disabled) else s.chans[id],
       panicked := s.panicked || exists id :: id in s.subs && id in s.chans && s.chans[id].status != Open)
  }

  /** The subscribers a non-blocking send cannot reach. */
  function Full<T>(cap: nat, s: State<T>): set<ChanId> {
    set id | id in s.subs && id in s.chans && |s.chans[id].buffer| >= cap
  }

  function Send<T>(cap: nat, c: Channel<T>, e: Event<T>): Channel<T> {
    if |c.buffer| < cap then c.(buffer := c.buffer + [e]) else c
  }

  /** The locked section of Forward. */
  function Publish<T>(cap: nat, s: State<T>, e: Event<T>): State<T> {
    s.(chans := map id | id in s.chans :: if id in s.subs then Send(cap, s.chans[id], e) else s.chans[id],
       pending := s.pending + Full(cap, s),
       log := s.log + [e],
       panicked := s.panicked || exists id :: id in s.subs && id in s.chans && s.chans[id].status != Open)
  }

  /** One iteration of Forward's removal loop, which retakes the mutex each time. */
  function Drop<T>(s: State<T>, id: ChanId): State<T> {
    Unsubscribe(s, id, Dropped).(pending := s.pending - {id})
  }

  /** The subscriber takes the oldest buffered event; a closed channel still drains. */
  function Receive<T>(s: State<T>, id: ChanId): State<T> {
    if id !in s.chans || s.chans[id].buffer == [] then s
    else
      var c := s.chans[id];
      s.(chans := s.chans[id := c.(buffer := c.buffer[1..], received := c.received + [c.buffer[0]])])
  }

  datatype Step<T> =
    | SubscribeStep(id: ChanId)
    | UnsubscribeStep(id: ChanId)
    | ForwardStep(event: SqlEvent<T>)
    | DropStep(id: ChanId)
    | ReceiveStep(id: ChanId)
    | EnableStep
    | DisableStep

  /** A step that cannot be taken leaves the state alone. The listener calls Forward
      from one goroutine, so the next Forward waits for the previous one's removals. */
  function Apply<T>(cap: nat, s: State<T>, step: Step<T>): State<T> {
    match step
    case SubscribeStep(id) => if id in s.chans then s else Subscribe(s, id)
    case UnsubscribeStep(id) => Unsubscribe(s, id, Unsubscribed)
    case ForwardStep(event) =>
      (match Decode(event)
       case Some(e) => if s.pending == {} then Publish(cap, s, e) else s
       case None => s)
    case DropStep(id) => if id in s.pending then Drop(s, id) else s
    case ReceiveStep(id) => Receive(s, id)
    case EnableStep => s.(enabled := true)
    case DisableStep => Disable(s)
  }

  function Run<T>(cap: nat, steps: seq<Step<T>>): State<T> {
    if steps == [] then Init()
    else Apply(cap, Run(cap, steps[..|steps| - 1]), steps[|steps| - 1])
  }

  /* ---------- What every step keeps ---------- */

  /** What one channel has been handed is a contiguous stretch of the log. */
  ghost predicate Contiguous<T>(log: seq<Event<T>>, c: Channel<T>) {
    && c.start + |c.Delivered()| <= |log|
    && c.Delivered() == log[c.start..c.start + |c.Delivered()|]
  }

  /** A live channel has everything, or all but the last event while its removal is pending. */
  ghost predicate ChannelOk<T>(cap: nat, s: State<T>, id: ChanId)
    requires id in s.chans
  {
    var c := s.chans[id];
    && Contiguous(s.log, c)
    && |c.buffer| <= cap
    && (id in s.subs <==> c.status == Open)
    && (id in s.subs && id !in s.pending ==> c.start + |c.Delivered()| == |s.log|)
    && (id in s.subs && id in s.pending ==> c.start + |c.Delivered()| == |s.log| - 1)
  }

  ghost predicate Inv<T>(cap: nat, s: State<T>) {
    && !s.panicked
    && s.subs <= s.chans.Keys
    && s.pending <= s.chans.Keys
    && (!s.enabled ==> s.subs == {})
    && (forall id :: id in s.chans ==> ChannelOk(cap, s, id))
  }

  lemma SubscribersAreOpen<T>(cap: nat, s: State<T>)
    requires Inv(cap, s)
    ensures forall id :: id in s.subs ==> id in s.chans && s.chans[id].status == Open
  {
    forall id | id in s.subs ensures s.chans[id].status == Open { assert ChannelOk(cap, s, id); }
  }

  lemma ReceiveKeepsInv<T>(cap: nat, s: State<T>, id: ChanId)
    requires Inv(cap, s)
    ensures Inv(cap, Receive(s, id))
  {
    if id in s.chans && s.chans[id].buffer != [] {
      var c := s.chans[id];
      var s' := Receive(s, id);
      assert s'.chans[id].Delivered() == c.Delivered();
      assert ChannelOk(cap, s, id);
      forall k | k in s'.chans ensures ChannelOk(cap, s', k) {
        assert ChannelOk(cap, s, k);
      }
    }
  }

  lemma PublishKeepsInv<T>(cap: nat, s: State<T>, e: Event<T>)
    requires Inv(cap, s) && s.pending == {}
    ensures Inv(cap, Publish(cap, s, e))
  {
    var s' := Publish(cap, s, e);
    forall id | id in s'.chans ensures ChannelOk(cap, s', id) {
      assert ChannelOk(cap, s, id);
      var c, c' := s.chans[id], s'.chans[id];
      if id in s.subs && |c.buffer| < cap {
        assert c'.Delivered() == c.Delivered() + [e];
      } else {
        assert c'.Delivered() == c.Delivered();
      }
    }
    assert forall id :: id in s.subs ==> ChannelOk(cap, s, id);
  }

  lemma UnsubscribeKeepsInv<T>(cap: nat, s: State<T>, id: ChanId, why: Status)
    requires Inv(cap, s) && why != Open
    ensures Inv(cap, Unsubscribe(s, id, why))
    ensures id !in Unsubscribe(s, id, why).subs
  {
    if id in s.subs {
      assert ChannelOk(cap, s, id);
      var s' := Unsubscribe(s, id, why);
      forall k | k in s'.chans ensures ChannelOk(cap, s', k) {
        assert ChannelOk(cap, s, k);
      }
    }
  }

  lemma DropKeepsInv<T>(cap: nat, s: State<T>, id: ChanId)
    requires Inv(cap, s)
    ensures Inv(cap, Drop(s, id))
  {
    UnsubscribeKeepsInv(cap, s, id, Dropped);
    var u, s' := Unsubscribe(s, id, Dropped), Drop(s, id);
    forall k | k in s'.chans ensures ChannelOk(cap, s', k) {
      assert ChannelOk(cap, u, k);
    }
  }

  lemma DisableKeepsInv<T>(cap: nat, s: State<T>)
    requires Inv(cap, s)
    ensures Inv(cap, Disable(s))
  {
    var s' := Disable(s);
    assert forall id :: id in s.subs ==> ChannelOk(cap, s, id);
    forall k | k in s'.chans ensures ChannelOk(cap, s', k) {
      assert ChannelOk(cap, s, k);
    }
  }

  lemma SubscribeKeepsInv<T>(cap: nat, s: State<T>, id: ChanId)
    requires Inv(cap, s) && id !in s.chans
    ensures Inv(cap, Subscribe(s, id))
  {
    var s' := Subscribe(s, id);
    forall k | k in s'.chans ensures ChannelOk(cap, s', k) {
      if k in s.chans { assert ChannelOk(cap, s, k); }
    }
  }

  lemma ApplyKeepsInv<T>(cap: nat, s: State<T>, step: Step<T>)
    requires Inv(cap, s)
    ensures Inv(cap, Apply(cap, s, step))
  {
    match step
    case SubscribeStep(id) => if id !in s.chans { SubscribeKeepsInv(cap, s, id); }
    case UnsubscribeStep(id) => UnsubscribeKeepsInv(cap, s, id, Unsubscribed);
    case ForwardStep(event) =>
      if Decode(event).Some? && s.pending == {} { PublishKeepsInv(cap, s, Decode(event).value); }
    case DropStep(id) => if id in s.pending { DropKeepsInv(cap, s, id); }
    case ReceiveStep(id) => ReceiveKeepsInv(cap, s, id);
    case EnableStep =>
      forall id | id in s.chans ensures ChannelOk(cap, s.(enabled := true), id) { assert ChannelOk(cap, s, id); }
    case DisableStep => DisableKeepsInv(cap, s);
  }

  lemma {:induction false} RunKeepsInv<T>(cap: nat, steps: seq<Step<T>>)
    ensures Inv(cap, Run(cap, steps))
  {
    if steps != [] {
      RunKeepsInv(cap, steps[..|steps| - 1]);
      ApplyKeepsInv(cap, Run(cap, steps[..|steps| - 1]), steps[|steps| - 1]);
    }
  }

  /* ---------- Main results ---------- */

  /** However the steps interleave, nobody closes a channel twice or sends on a closed
      one, a channel is open exactly when it is subscribed, no buffer outgrows its
      capacity and a disabled broker has no subscribers. */
  lemma ChannelSafety<T>(cap: nat, steps: seq<Step<T>>)
    ensures !Run(cap, steps).panicked
    ensures !Run(cap, steps).enabled ==> Run(cap, steps).subs == {}
    ensures Run(cap, steps).subs <= Run(cap, steps).chans.Keys
    ensures forall id :: id in Run(cap, steps).chans ==>
              var s := Run(cap, steps);
              (id in s.subs <==> s.chans[id].status == Open) && |s.chans[id].buffer| <= cap
  {
    RunKeepsInv(cap, steps);
    forall id | id in Run(cap, steps).chans ensures ChannelOk(cap, Run(cap, steps), id) {}
  }

  /** Received plus buffered is a contiguous stretch of the forwarded events that begins
      where the subscription began. It misses nothing while the subscription is live and
      not condemned, and exactly the last event while it is condemned. */
  lemma DeliveryIsPrefix<T>(cap: nat, steps: seq<Step<T>>, id: ChanId)
    requires id in Run(cap, steps).chans
    ensures var s := Run(cap, steps); var c := s.chans[id];
            && Contiguous(s.log, c)
            && (id in s.subs && id !in s.pending ==> c.Delivered() == s.log[c.start..])
            && (id in s.subs && id in s.pending ==>
                  s.log != [] && c.start < |s.log| && c.Delivered() == s.log[c.start..|s.log| - 1])
  {
    RunKeepsInv(cap, steps);
    assert ChannelOk(cap, Run(cap, steps), id);
  }

  /** In particular, so is what it has received. */
  lemma ReceivedIsStretch<T>(cap: nat, steps: seq<Step<T>>, id: ChanId)
    requires id in Run(cap, steps).chans
    ensures var s := Run(cap, steps); var c := s.chans[id];
            c.start + |c.received| <= |s.log| && c.received == s.log[c.start..c.start + |c.received|]
  {
    DeliveryIsPrefix(cap, steps, id);
    var c := Run(cap, steps).chans[id];
    assert c.received == c.Delivered()[..|c.received|];
  }

  /** Step n forwarded an event while the channel was subscribed with a full buffer. */
  ghost predicate FullAt<T>(cap: nat, steps: seq<Step<T>>, id: ChanId, n: nat) {
    && n < |steps|
    && steps[n].ForwardStep? && Decode(steps[n].event).Some?
    && id in Full(cap, Run(cap, steps[..n]))
  }

  /** Forward drops a subscriber only after finding its buffer full. */
  lemma {:induction false} DroppedOnlyWhenFull<T>(cap: nat, steps: seq<Step<T>>, id: ChanId) returns (n: nat)
    requires var s := Run(cap, steps); id in s.pending || (id in s.chans && s.chans[id].status == Dropped)
    ensures FullAt(cap, steps, id, n)
  {
    var before := steps[..|steps| - 1];
    var s := Run(cap, before);
    if id in s.pending || (id in s.chans && s.chans[id].status == Dropped) {
      n := DroppedOnlyWhenFull(cap, before, id);
      assert before[..n] == steps[..n];
    } else {
      n := |steps| - 1;
    }
  }

  /** Conversely, a forward condemns every subscriber whose buffer is full, and no other. */
  lemma ForwardCondemnsExactlyTheFull<T>(cap: nat, steps: seq<Step<T>>, e: SqlEvent<T>)
    requires Decode(e).Some? && Run(cap, steps).pending == {}
    ensures var s, s' := Run(cap, steps), Run(cap, steps + [ForwardStep(e)]);
            && s'.log == s.log + [Decode(e).value]
            && s'.subs == s.subs
            && forall id :: id in s'.pending <==> id in s.subs && id in s.chans && |s.chans[id].buffer| == cap
  {
    RunKeepsInv(cap, steps);
    var s := Run(cap, steps);
    assert (steps + [ForwardStep(e)])[..|steps|] == steps;
    forall id | id in s.subs ensures ChannelOk(cap, s, id) {}
  }

  /** What if two Forward calls did overlap, and an event were published while removals are
      pending? Some stream would get a hole exactly when a condemned subscriber has made room
      since, and the event differs from the one that it missed. */
  lemma PublishBreaksStreamsIff<T>(cap: nat, s: State<T>, e: Event<T>)
    requires Inv(cap, s)
    ensures var s' := Publish(cap, s, e);
            (exists id :: id in s'.chans && !Contiguous(s'.log, s'.chans[id])) <==>
            exists id :: id in s.pending && id in s.subs && |s.chans[id].buffer| < cap && s.log[|s.log| - 1] != e
  {
    var s' := Publish(cap, s, e);
    forall id | id in s'.chans
      ensures !Contiguous(s'.log, s'.chans[id]) <==>
              id in s.pending && id in s.subs && |s.chans[id].buffer| < cap && s.log[|s.log| - 1] != e
    {
      PublishBreaksStreamIff(cap, s, e, id);
    }
  }

  lemma PublishBreaksStreamIff<T>(cap: nat, s: State<T>, e: Event<T>, id: ChanId)
    requires id in s.chans && ChannelOk(cap, s, id)
    ensures !Contiguous(Publish(cap, s, e).log, Publish(cap, s, e).chans[id]) <==>
            id in s.pending && id in s.subs && |s.chans[id].buffer| < cap && s.log[|s.log| - 1] != e
  {
    var c, c' := s.chans[id], Publish(cap, s, e).chans[id];
    if id in s.subs && |c.buffer| < cap {
      assert c'.Delivered() == c.Delivered() + [e];
      OneMoreContiguous(s.log, c.start, c.Delivered(), e);
    } else {
      assert c'.Delivered() == c.Delivered();
      assert (s.log + [e])[c.start..c.start + |c.Delivered()|] == s.log[c.start..c.start + |c.Delivered()|];
    }
  }

  lemma OneMoreContiguous<T>(log: seq<Event<T>>, start: nat, got: seq<Event<T>>, e: Event<T>)
    requires start + |got| <= |log| && got == log[start..start + |got|]
    ensures got + [e] == (log + [e])[start..start + |got| + 1] <==> start + |got| == |log| || log[start + |got|] == e
  {
    var n := start + |got|;
    assert (log + [e])[start..n + 1] == got + [(log + [e])[n]];
    assert (got + [e])[|got|] == e && (got + [(log + [e])[n]])[|got|] == (log + [e])[n];
  }

  /** For example, with room for one event. */
  lemma OverlappingForwardsLeaveAHole<T>(a: Event<T>, b: Event<T>, c: Event<T>)
    requires b != c
    ensures var s0 := Publish(1, Publish(1, Subscribe(Init<T>(), 0), a), b);
            var s1 := Publish(1, Receive(s0, 0), c);
            && s0.pending == {0}
            && s1.chans[0].Delivered() == [a, c]
            && !Contiguous(s1.log, s1.chans[0])
  {
    var s0 := Publish(1, Publish(1, Subscribe(Init<T>(), 0), a), b);
    var r := Receive(s0, 0);
    var s1 := Publish(1, r, c);
    assert s0.chans[0].buffer == [a];
    assert r.chans[0].received == [a] && r.chans[0].buffer == [];
    assert s1.log == [a, b, c];
    assert s1.chans[0].Delivered() == [a, c];
    assert s1.log[0..2][1] == b;
  }

  /* ---------- Disabling and enabling ---------- */

  /** Disabling closes every subscription, once, and touches nothing else: what was buffered
      can still be received, and events being dropped are dropped. */
  lemma DisableClosesAll<T>(cap: nat, steps: seq<Step<T>>)
    ensures var s, s' := Run(cap, steps), Run(cap, steps + [DisableStep]);
            && !s'.enabled && s'.subs == {} && !s'.panicked
            && s'.log == s.log && s'.pending == s.pending && s'.chans.Keys == s.chans.Keys
            && forall id :: id in s.chans ==>
                 && s'.chans[id].buffer == s.chans[id].buffer && s'.chans[id].received == s.chans[id].received
                 && s'.chans[id].start == s.chans[id].start
                 && s'.chans[id].status == (if s.chans[id].status == Open then Disabled else s.chans[id].status)
  {
    RunKeepsInv(cap, steps);
    RunKeepsInv(cap, steps + [DisableStep]);
    var s := Run(cap, steps);
    assert (steps + [DisableStep])[..|steps|] == steps;
    forall id | id in s.chans ensures id in s.subs <==> s.chans[id].status == Open { assert ChannelOk(cap, s, id); }
  }

  /** Unsubscribing, by the caller or when its context is cancelled, closes that subscription
      and no other, and does nothing if it is closed already. */
  lemma UnsubscribeClosesOne<T>(cap: nat, steps: seq<Step<T>>, id: ChanId)
    ensures var s, s' := Run(cap, steps), Run(cap, steps + [UnsubscribeStep(id)]);
            && s'.subs == s.subs - {id}
            && (id in s.subs ==> id in s.chans && s'.chans == s.chans[id := s.chans[id].(status := Unsubscribed)])
            && (id !in s.subs ==> s'.chans == s.chans)
            && s'.enabled == s.enabled && s'.log == s.log && s'.pending == s.pending && !s'.panicked
  {
    RunKeepsInv(cap, steps);
    RunKeepsInv(cap, steps + [UnsubscribeStep(id)]);
    assert (steps + [UnsubscribeStep(id)])[..|steps|] == steps;
  }

  /** From then on the broker stays disabled and refuses subscriptions, whatever else happens,
      until it is enabled. */
  lemma {:induction false} DisabledRefuses<T>(cap: nat, steps: seq<Step<T>>, more: seq<Step<T>>, id: ChanId)
    requires EnableStep !in more
    ensures var s := Run(cap, steps + [DisableStep] + more);
            && !s.enabled && s.subs == {}
            && Run(cap, steps + [DisableStep] + more + [SubscribeStep(id)]) == s
  {
    var before := steps + [DisableStep] + more;
    if more == [] {
      DisableClosesAll(cap, steps);
      assert before == steps + [DisableStep];
    } else {
      var init, last := more[..|more| - 1], more[|more| - 1];
      DisabledRefuses(cap, steps, init, id);
      assert before[..|before| - 1] == steps + [DisableStep] + init && last in more;
      StaysDisabled(cap, Run(cap, steps + [DisableStep] + init), last);
    }
    assert (before + [SubscribeStep(id)])[..|before|] == before;
  }

  lemma StaysDisabled<T>(cap: nat, s: State<T>, step: Step<T>)
    requires !s.enabled && s.subs == {} && step != EnableStep
    ensures !Apply(cap, s, step).enabled && Apply(cap, s, step).subs == {}
  {
  }

  /** Once enabled, it takes them: the channel starts empty, with the next event. */
  lemma EnabledAccepts<T>(cap: nat, steps: seq<Step<T>>, id: ChanId)
    requires id !in Run(cap, steps).chans
    ensures var s, s' := Run(cap, steps), Run(cap, steps + [EnableStep] + [SubscribeStep(id)]);
            && s'.enabled && s'.subs == s.subs + {id} && s'.log == s.log && s'.pending == s.pending
            && s'.chans == s.chans[id := Channel([], Open, |s.log|, [])]
  {
    var enabled := steps + [EnableStep];
    assert enabled[..|steps|] == steps && (enabled + [SubscribeStep(id)])[..|enabled|] == enabled;
  }

  /** Which database events become events, and which. */
  lemma DecodesIff<T>(e: SqlEvent<T>)
    ensures Decode(e).Some? <==> e.record.Some? && (e.action == "INSERT" || e.action == "UPDATE" || e.action == "DELETE")
    ensures Decode(e).Some? ==> Decode(e).value.payload == e.record.value && Decode(e).value.time == e.time
    ensures Decode(e).Some? ==> (Decode(e).value.kind == Created <==> e.action == "INSERT")
    ensures Decode(e).Some? ==> (Decode(e).value.kind == Updated <==> e.action == "UPDATE")
    ensures Decode(e).Some? ==> (Decode(e).value.kind == Deleted <==> e.action == "DELETE")
  {
  }

  /* ---------- A whole Forward call ---------- */

  /** Removing a set of subscribers, in whatever order. */
  function DropAll<T>(s: State<T>, ids: set<ChanId>): State<T> {
    s.(subs := s.subs - ids,
       chans := map id | id in s.chans ::
                  if id in ids && id in s.subs then s.chans[id].(status := Dropped) else s.chans[id],
       pending := s.pending - ids)
  }

  lemma DropOneMore<T>(cap: nat, s: State<T>, ids: set<ChanId>, id: ChanId)
    requires Inv(cap, DropAll(s, ids))
    ensures Drop(DropAll(s, ids), id) == DropAll(s, ids + {id})
    ensures Inv(cap, DropAll(s, ids + {id}))
  {
    var d := DropAll(s, ids);
    if id in d.subs { SubscribersAreOpen(cap, d); }
    assert Drop(d, id) == DropAll(s, ids + {id}) by {
      assert d.subs - {id} == s.subs - (ids + {id});
      assert d.pending - {id} == s.pending - (ids + {id});
      assert Drop(d, id).chans == DropAll(s, ids + {id}).chans;
    }
    DropKeepsInv(cap, d, id);
  }

  /** An uninterrupted Forward: publish, then remove every subscriber found full. */
  function Forward<T>(cap: nat, s: State<T>, event: SqlEvent<T>): State<T> {
    match Decode(event)
    case None => s
    case Some(e) => DropAll(Publish(cap, s, e), Full(cap, s))
  }

  function Drops<T>(ids: seq<ChanId>): seq<Step<T>> {
    if ids == [] then [] else Drops(ids[..|ids| - 1]) + [DropStep(ids[|ids| - 1])]
  }

  lemma {:induction false} DropsDropAll<T>(cap: nat, steps: seq<Step<T>>, ids: seq<ChanId>)
    requires forall id :: id in ids ==> id in Run(cap, steps).pending
    ensures Run(cap, steps + Drops(ids)) == DropAll(Run(cap, steps), Elements(ids))
  {
    if ids == [] {
      NothingDropped(Run(cap, steps));
      assert steps + [] == steps;
    } else {
      var init := ids[..|ids| - 1];
      DropsDropAll(cap, steps, init);
      DropsOneMore(cap, steps, Run(cap, steps), init, ids);
    }
  }

  lemma DropsOneMore<T>(cap: nat, steps: seq<Step<T>>, s: State<T>, init: seq<ChanId>, ids: seq<ChanId>)
    requires ids != [] && init == ids[..|ids| - 1] && ids[|ids| - 1] in s.pending
    requires Run(cap, steps + Drops(init)) == DropAll(s, Elements(init))
    ensures Run(cap, steps + Drops(ids)) == DropAll(s, Elements(ids))
  {
    var id, before := ids[|ids| - 1], steps + Drops(init);
    Associate(steps, Drops<T>(init), [DropStep(id)]);
    OneElementMore(init, ids);
    RunKeepsInv(cap, before);
    DropStepDrops(cap, s, Elements(init), id);
    RunOneMore(cap, before, DropStep(id));
  }

  lemma OneElementMore(init: seq<ChanId>, ids: seq<ChanId>)
    requires ids != [] && init == ids[..|ids| - 1]
    ensures Elements(ids) == Elements(init) + {ids[|ids| - 1]}
  {
    assert ids == init + [ids[|ids| - 1]];
  }

  lemma RunOneMore<T>(cap: nat, steps: seq<Step<T>>, step: Step<T>)
    ensures Run(cap, steps + [step]) == Apply(cap, Run(cap, steps), step)
  {
    assert (steps + [step])[..|steps|] == steps;
  }

  lemma NothingDropped<T>(s: State<T>)
    ensures DropAll(s, Elements([])) == s
  {
    assert Elements<ChanId>([]) == {};
    assert DropAll(s, {}).chans == s.chans;
  }

  /** A removal that is pending, or was and has been made. */
  lemma DropStepDrops<T>(cap: nat, s: State<T>, ids: set<ChanId>, id: ChanId)
    requires Inv(cap, DropAll(s, ids)) && id in s.pending
    ensures Apply(cap, DropAll(s, ids), DropStep(id)) == DropAll(s, ids + {id})
  {
    if id in ids {
      assert ids + {id} == ids;
    } else {
      DropOneMore(cap, s, ids, id);
    }
  }

  /** After any run, an uninterrupted Forward is its locked section followed by one removal
      for each subscriber found full, in any order. */
  lemma ForwardIsSteps<T>(cap: nat, steps: seq<Step<T>>, event: SqlEvent<T>, ids: seq<ChanId>)
    requires Decode(event).Some? && Run(cap, steps).pending == {}
    requires forall id :: id in ids <==> id in Full(cap, Run(cap, steps))
    ensures Run(cap, steps + [ForwardStep(event)] + Drops(ids)) == Forward(cap, Run(cap, steps), event)
  {
    assert (steps + [ForwardStep(event)])[..|steps|] == steps;
    DropsDropAll(cap, steps + [ForwardStep(event)], ids);
    assert Elements(ids) == Full(cap, Run(cap, steps));
  }
}
