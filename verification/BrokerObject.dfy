/** The broker as the object it is: fields updated in place, one method per function of
    internal/pubsub/broker.go, each proved to take the corresponding step of Broker. */
module BrokerObject {
  import opened Prelude
  import opened Broker

  class EventBroker<T> {
    const cap: nat
    var subs: set<ChanId>
    var enabled: bool
    var chans: map<ChanId, Channel<T>>
    ghost var pending: set<ChanId>
    var log: seq<Event<T>> // history only: nothing below branches on it

    ghost function Abs(): State<T>
      reads this
    {
      State(subs, enabled, chans, pending, log, false)
    }

    ghost predicate Valid()
      reads this
    {
      Inv(cap, Abs())
    }

    constructor (cap: nat)
      ensures Valid() && Abs() == Init() && this.cap == cap
    {
      this.cap := cap;
      subs, enabled, chans, log := {}, true, map[], [];
      pending := {};
    }

    method Enable()
      requires Valid()
      modifies this
      ensures Valid() && Abs() == old(Abs()).(enabled := true) && enabled
    {
      ApplyKeepsInv(cap, Abs(), EnableStep);
      enabled := true;
    }

    /** The runtime hands out a channel nobody else holds; it has not been seen before. */
    method Subscribe(newChan: ChanId) returns (sub: Option<ChanId>)
      requires Valid() && newChan !in chans
      modifies this
      ensures Valid() && Abs() == Broker.Subscribe(old(Abs()), newChan)
      ensures sub == if old(enabled) then Some(newChan) else None
      ensures old(enabled) ==> subs == old(subs) + {newChan} && chans == old(chans)[newChan := Channel([], Open, |log|, [])]
      ensures !old(enabled) ==> Abs() == old(Abs())
    {
      SubscribeKeepsInv(cap, Abs(), newChan);
      if !enabled {
        return None;
      }
      chans := chans[newChan := Channel([], Open, |log|, [])];
      subs := subs + {newChan};
      return Some(newChan);
    }

    /** Go's close: closing a closed channel panics. */
    method Close(id: ChanId, why: Status)
      requires id in chans && chans[id].status == Open
      modifies this`chans
      ensures chans == old(chans)[id := old(chans)[id].(status := why)]
    {
      chans := chans[id := chans[id].(status := why)];
    }

    /** Go's non-blocking send: sending on a closed channel panics. */
    method TrySend(id: ChanId, e: Event<T>) returns (sent: bool)
      requires id in chans && chans[id].status == Open
      modifies this`chans
      ensures sent == (|old(chans)[id].buffer| < cap)
      ensures chans == old(chans)[id := Send(cap, old(chans)[id], e)]
    {
      sent := |chans[id].buffer| < cap;
      if sent {
        chans := chans[id := chans[id].(buffer := chans[id].buffer + [e])];
      } else {
        chans := chans[id := chans[id]];
      }
    }

    method Unsubscribe(sub: ChanId, why: Status)
      requires Valid() && why != Open
      modifies this
      ensures Valid() && Abs() == Broker.Unsubscribe(old(Abs()), sub, why)
      ensures sub !in subs && subs == old(subs) - {sub}
      ensures sub in old(subs) ==> sub in chans && chans[sub] == old(chans)[sub].(status := why)
    {
      UnsubscribeKeepsInv(cap, Abs(), sub, why);
      if sub !in subs {
        return; // already unsubscribed
      }
      assert ChannelOk(cap, Abs(), sub);
      Close(sub, why);
      subs := subs - {sub};
    }

    method Disable()
      requires Valid()
      modifies this
      ensures Valid() && Abs() == Broker.Disable(old(Abs()))
      ensures !enabled && subs == {} && log == old(log) && chans.Keys == old(chans).Keys
      ensures forall k :: k in chans ==> chans[k] == if k in old(subs) then old(chans)[k].(status := Disabled) else old(chans)[k]
    {
      DisableKeepsInv(cap, Abs());
      SubscribersAreOpen(cap, Abs());
      enabled := false;
      CloseAll();
    }

    /** Disable's loop over the subscriptions. */
    method CloseAll()
      requires forall id :: id in subs ==> id in chans && chans[id].status == Open
      modifies this`subs, this`chans
      ensures subs == {} && chans == Broker.Disable(old(Abs())).chans
    {
      var todo := subs;
      while todo != {}
        invariant todo == subs <= old(subs) <= old(chans).Keys
        invariant chans.Keys == old(chans).Keys
        invariant forall k :: k in chans ==>
                    chans[k] == if k in old(subs) && k !in todo then old(chans)[k].(status := Disabled) else old(chans)[k]
        decreases todo
      {
        var sub :| sub in todo;
        Close(sub, Disabled);
        subs := subs - {sub};
        todo := todo - {sub};
      }
    }

    /** The section of Forward that holds the mutex. */
    method Publish(e: Event<T>) returns (fullSubscribers: seq<ChanId>)
      requires Valid() && pending == {}
      modifies this
      ensures Valid() && Abs() == Broker.Publish(cap, old(Abs()), e)
      ensures forall id :: id in fullSubscribers <==> id in Full(cap, old(Abs()))
    {
      PublishKeepsInv(cap, Abs(), e);
      SubscribersAreOpen(cap, Abs());
      fullSubscribers := Offer(e);
      pending := pending + Full(cap, old(Abs()));
      log := log + [e];
    }

    /** Forward's loop: offer the event to every subscriber in the map's arbitrary order
        and collect those that are full. */
    method Offer(e: Event<T>) returns (fullSubscribers: seq<ChanId>)
      requires forall id :: id in subs ==> id in chans && chans[id].status == Open
      modifies this`chans
      ensures chans == Broker.Publish(cap, old(Abs()), e).chans
      ensures forall id :: id in fullSubscribers <==> id in Full(cap, old(Abs()))
    {
      fullSubscribers := [];
      var todo := subs;
      while todo != {}
        invariant todo <= subs <= old(chans).Keys
        invariant chans.Keys == old(chans).Keys
        invariant forall k :: k in chans ==>
                    chans[k] == if k in subs && k !in todo then Send(cap, old(chans)[k], e) else old(chans)[k]
        invariant forall k :: k in fullSubscribers <==> k in subs && k !in todo && |old(chans)[k].buffer| >= cap
        decreases todo
      {
        var sub :| sub in todo;
        var sent := TrySend(sub, e);
        if !sent {
          fullSubscribers := fullSubscribers + [sub];
        }
        todo := todo - {sub};
      }
    }

    method Forward(sqlEvent: SqlEvent<T>)
      requires Valid() && pending == {}
      modifies this
      ensures Valid() && Abs() == Broker.Forward(cap, old(Abs()), sqlEvent)
    {
      var decoded := Decode(sqlEvent);
      if decoded == None {
        return; // undecodable record or unknown action
      }
      var fullSubscribers := Publish(decoded.value);
      RemoveEach(fullSubscribers);
      assert Full(cap, old(Abs())) == Elements(fullSubscribers);
    }

    /** Forward's second loop. */
    method RemoveEach(fullSubscribers: seq<ChanId>)
      requires Valid()
      modifies this
      ensures Valid() && Abs() == DropAll(old(Abs()), Elements(fullSubscribers))
    {
      ghost var published := Abs();
      NothingDropped(published);
      for i := 0 to |fullSubscribers|
        invariant Valid() && Abs() == DropAll(published, Elements(fullSubscribers[..i]))
      {
        OneElementMore(fullSubscribers[..i], fullSubscribers[..i + 1]);
        Remove(fullSubscribers[i], published, Elements(fullSubscribers[..i]));
      }
      assert fullSubscribers[..|fullSubscribers|] == fullSubscribers;
    }

    /** One iteration of Forward's second loop, which takes the mutex anew each time. */
    method Remove(sub: ChanId, ghost published: State<T>, ghost removed: set<ChanId>)
      requires Valid() && Abs() == DropAll(published, removed)
      modifies this
      ensures Valid() && Abs() == DropAll(published, removed + {sub})
    {
      DropOneMore(cap, published, removed, sub);
      Unsubscribe(sub, Dropped);
      pending := pending - {sub};
    }
  }
}
