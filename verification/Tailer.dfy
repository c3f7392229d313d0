/**
Following a log while it is written (internal/run/tailer.go): subscribe to chunk events,
read what is stored, then relay events, leaving out what was already read. Events for the
chunks table include the deletions made when a log is coalesced, which the tailer does not
tell apart from insertions.
 */
module Tailer {
  import opened Prelude
  import opened Broker
  import opened Chunks

  /** What is left of a chunk from a position on. */
  function Rest(c: Chunk, offset: nat): Chunk { if c.offset < offset then c.Cut(offset, 0) else c }

  /** The relay loop: what it sends for a stream of events, and whether it reached the end
      of the log and stopped. */
  function Relay(key: Key, offset: nat, es: seq<Event<Chunk>>): (seq<Chunk>, bool) {
    if es == [] then ([], false)
    else
      var c := es[0].payload;
      if c.key != key || (c.offset < offset && c.NextOffset() <= offset) then Relay(key, offset, es[1..])
      else if |Rest(c, offset).data| == 0 then Relay(key, offset, es[1..])
      else if Rest(c, offset).IsEnd() then ([Rest(c, offset)], true)
      else
        var (rest, ended) := Relay(key, offset, es[1..]);
        ([Rest(c, offset)] + rest, ended)
  }

  method RelayLoop(key: Key, offset: nat, es: seq<Event<Chunk>>) returns (sent: seq<Chunk>, ended: bool)
    ensures (sent, ended) == Relay(key, offset, es)
  {
    sent, ended := [], false;
    assert es[0..] == es;
    ghost var all := Relay(key, offset, es);
    for i := 0 to |es|
      invariant !ended
      invariant all.0 == sent + Relay(key, offset, es[i..]).0 && all.1 == Relay(key, offset, es[i..]).1
    {
      assert es[i..][1..] == es[i + 1..];
      var c := es[i].payload;
      if c.key != key {
        continue;
      }
      if c.offset < offset {
        if c.NextOffset() <= offset {
          continue;
        }
        c := c.Cut(offset, 0);
      }
      if |c.data| == 0 {
        continue;
      }
      sent := sent + [c];
      if c.IsEnd() {
        return sent, true;
      }
    }
    assert es[|es|..] == [] && sent + [] == sent;
  }

  /** The bytes sent on, in order. */
  function Bytes(cs: seq<Chunk>): seq<byte> {
    if cs == [] then [] else cs[0].data + Bytes(cs[1..])
  }

  /** The phase's log as of the first n events: the insertions, one after the other. */
  function LogAt(es: seq<Event<Chunk>>, key: Key, n: nat): seq<byte>
    requires n <= |es|
  {
    if n == 0 then []
    else if es[n - 1].kind == Created && es[n - 1].payload.key == key then LogAt(es, key, n - 1) + es[n - 1].payload.data
    else LogAt(es, key, n - 1)
  }

  predicate Complete(log: seq<byte>) { |log| > 0 && log[|log| - 1] == ETX }

  /** An insertion carries on where the log so far ends, and never after its end marker; a
      deletion is of something inserted. */
  ghost predicate RowEventOk(es: seq<Event<Chunk>>, key: Key, n: nat)
    requires n < |es|
  {
    var c, log := es[n].payload, LogAt(es, key, n);
    c.key == key ==>
      && c.data != []
      && (es[n].kind == Created ==> c.offset == |log| && !Complete(log))
      && (es[n].kind != Created ==> c.NextOffset() <= |log| && (c.IsEnd() ==> Complete(log)))
  }

  ghost predicate RowStream(es: seq<Event<Chunk>>, key: Key) {
    forall n :: 0 <= n < |es| ==> RowEventOk(es, key, n)
  }

  /** And deletions are those of coalescing: they come once the log is complete. */
  ghost predicate EventOk(es: seq<Event<Chunk>>, key: Key, n: nat)
    requires n < |es|
  {
    RowEventOk(es, key, n) && (es[n].payload.key == key && es[n].kind != Created ==> Complete(LogAt(es, key, n)))
  }

  ghost predicate ChunkStream(es: seq<Event<Chunk>>, key: Key) {
    forall n :: 0 <= n < |es| ==> EventOk(es, key, n)
  }

  lemma {:induction false} LogGrows(es: seq<Event<Chunk>>, key: Key, m: nat, n: nat)
    requires m <= n <= |es| && RowStream(es, key)
    ensures LogAt(es, key, m) <= LogAt(es, key, n)
    ensures Complete(LogAt(es, key, m)) ==> LogAt(es, key, n) == LogAt(es, key, m)
    decreases n
  {
    if m < n {
      LogGrows(es, key, m, n - 1);
      assert RowEventOk(es, key, n - 1);
    }
  }

  /** The chunk is not left out: some of it lies past the resume position. */
  predicate Reaches(key: Key, offset: nat, c: Chunk) { c.key == key && c.NextOffset() > offset }

  lemma RestReaches(c: Chunk, offset: nat)
    requires c.NextOffset() > offset && c.data != []
    ensures Rest(c, offset).data != [] && Rest(c, offset).IsEnd() == c.IsEnd()
  {
    if c.offset < offset { CutIsWindow(c, offset, 0); }
  }

  /** An insertion that reaches past the resume position adds to what the caller has exactly
      the part that the tailer sends. */
  lemma InsertionSent(before: seq<byte>, c: Chunk, offset: nat, o: nat)
    requires c.offset == |before| && o <= offset < c.NextOffset()
    requires |before| < offset ==> offset == o
    ensures From(before, o) + Rest(c, offset).data == From(before + c.data, o)
  {
    var all := before + c.data;
    if c.offset < offset {
      CutIsWindow(c, offset, 0);
      assert c.Cut(offset, 0).data == all[offset..];
    } else {
      assert all[o..] == before[o..] + c.data;
    }
  }

  /** Where the relay takes over from the snapshot. */
  function Resume(es: seq<Event<Chunk>>, key: Key, o: nat, at: nat): nat
    requires at <= |es|
  {
    Max(o, |LogAt(es, key, at)|)
  }

  /** What the caller should have after n events, or the snapshot if that is later. */
  function Due(es: seq<Event<Chunk>>, key: Key, o: nat, at: nat, n: nat): seq<byte>
    requires at <= |es| && n <= |es|
  {
    From(LogAt(es, key, Max(at, n)), o)
  }

  /** If the log is complete then there is nothing left to send. */
  ghost predicate Settled(es: seq<Event<Chunk>>, key: Key, o: nat, at: nat, n: nat)
    requires at <= |es| && n <= |es|
  {
    var log := LogAt(es, key, Max(at, n));
    Complete(log) ==> |log| <= Resume(es, key, o, at)
  }

  /* ---------- What one event means ---------- */

  /** An insertion that reaches past the resume position was made after the snapshot. */
  lemma InsertionDue(es: seq<Event<Chunk>>, key: Key, o: nat, at: nat, n: nat)
    requires RowStream(es, key) && at <= |es| && n < |es|
    requires es[n].kind == Created && Reaches(key, Resume(es, key, o, at), es[n].payload)
    ensures var rest := Rest(es[n].payload, Resume(es, key, o, at));
            && at <= n && rest.data != []
            && Due(es, key, o, at, n) + rest.data == Due(es, key, o, at, n + 1)
            && (rest.IsEnd() <==> Complete(LogAt(es, key, n + 1)))
            && |LogAt(es, key, n + 1)| > Resume(es, key, o, at)
  {
    var c, before := es[n].payload, LogAt(es, key, n);
    assert RowEventOk(es, key, n);
    assert LogAt(es, key, n + 1) == before + c.data;
    if n < at { LogGrows(es, key, n + 1, at); }
    LogGrows(es, key, at, n);
    InsertionSent(before, c, Resume(es, key, o, at), o);
    RestReaches(c, Resume(es, key, o, at));
  }

  /** A deletion that does is of a part of an unfinished log, made after the snapshot. */
  lemma DeletionReaches(es: seq<Event<Chunk>>, key: Key, o: nat, at: nat, n: nat)
    requires RowStream(es, key) && at <= |es| && n < |es| && Settled(es, key, o, at, n)
    requires es[n].kind != Created && Reaches(key, Resume(es, key, o, at), es[n].payload)
    ensures var rest := Rest(es[n].payload, Resume(es, key, o, at)); rest.data != [] && !rest.IsEnd()
    ensures !Complete(LogAt(es, key, n))
  {
    assert RowEventOk(es, key, n);
    if n < at { LogGrows(es, key, n, at); }
    RestReaches(es[n].payload, Resume(es, key, o, at));
  }

  /** Any other event changes nothing for the caller. */
  lemma NothingDue(es: seq<Event<Chunk>>, key: Key, o: nat, at: nat, n: nat)
    requires RowStream(es, key) && at <= |es| && n < |es| && Settled(es, key, o, at, n)
    requires !(es[n].kind == Created && Reaches(key, Resume(es, key, o, at), es[n].payload))
    ensures Settled(es, key, o, at, n + 1)
    ensures Due(es, key, o, at, n) == Due(es, key, o, at, n + 1)
  {
    assert RowEventOk(es, key, n);
    if at <= n { LogGrows(es, key, at, n); }
  }

  /* ---------- What a stream of events comes to ---------- */

  /** What reaches the tailer of events n to b: those at positions in `relayed`. */
  function KeptFrom(es: seq<Event<Chunk>>, relayed: set<nat>, n: nat, b: nat): seq<Event<Chunk>>
    requires b <= |es|
    decreases b - n
  {
    if n >= b then []
    else if n in relayed then [es[n]] + KeptFrom(es, relayed, n + 1, b)
    else KeptFrom(es, relayed, n + 1, b)
  }

  /** Insertions past the resume position that do not reach the tailer, and deletions past it,
      of an unfinished log, that do. */
  predicate Lost(es: seq<Event<Chunk>>, key: Key, offset: nat, relayed: set<nat>, n: nat)
    requires n < |es|
  {
    n !in relayed && es[n].kind == Created && Reaches(key, offset, es[n].payload)
  }

  predicate Echoed(es: seq<Event<Chunk>>, key: Key, offset: nat, relayed: set<nat>, n: nat)
    requires n < |es|
  {
    n in relayed && es[n].kind != Created && Reaches(key, offset, es[n].payload) && !Complete(LogAt(es, key, n))
  }

  /** How many bytes of events n to b are lost. */
  function Lacking(es: seq<Event<Chunk>>, key: Key, offset: nat, relayed: set<nat>, n: nat, b: nat): nat
    requires b <= |es|
    decreases b - n
  {
    if n >= b then 0
    else (if Lost(es, key, offset, relayed, n) then |Rest(es[n].payload, offset).data| else 0) + Lacking(es, key, offset, relayed, n + 1, b)
  }

  /** How many are sent again. */
  function Surplus(es: seq<Event<Chunk>>, key: Key, offset: nat, relayed: set<nat>, n: nat, b: nat): nat
    requires b <= |es|
    decreases b - n
  {
    if n >= b then 0
    else (if Echoed(es, key, offset, relayed, n) then |Rest(es[n].payload, offset).data| else 0) + Surplus(es, key, offset, relayed, n + 1, b)
  }

  ghost predicate NoneLost(es: seq<Event<Chunk>>, key: Key, offset: nat, relayed: set<nat>, n: nat, b: nat)
    requires b <= |es|
  {
    forall m :: n <= m < b ==> !Lost(es, key, offset, relayed, m)
  }

  ghost predicate NoneEchoed(es: seq<Event<Chunk>>, key: Key, offset: nat, relayed: set<nat>, n: nat, b: nat)
    requires b <= |es|
  {
    forall m :: n <= m < b ==> !Echoed(es, key, offset, relayed, m)
  }

  /** The end of the log is not among the lost. */
  ghost predicate EndNotLost(es: seq<Event<Chunk>>, key: Key, offset: nat, relayed: set<nat>, n: nat, b: nat)
    requires b <= |es|
  {
    forall m :: n <= m < b && Lost(es, key, offset, relayed, m) ==> !es[m].payload.IsEnd()
  }

  /** Events n to b, as far as they reach the tailer, bring the caller from what is due after n
      to what is due after b, but for the bytes lost and those sent again; and the relay stops
      as it should. */
  ghost predicate Accounts(es: seq<Event<Chunk>>, key: Key, o: nat, at: nat, relayed: set<nat>, n: nat, b: nat)
    requires at <= |es| && n <= b <= |es|
  {
    var offset := Resume(es, key, o, at);
    var (sent, ended) := Relay(key, offset, KeptFrom(es, relayed, n, b));
    var lacking, surplus := Lacking(es, key, offset, relayed, n, b), Surplus(es, key, offset, relayed, n, b);
    var log := LogAt(es, key, Max(at, b));
    && |Due(es, key, o, at, n)| + |Bytes(sent)| + lacking == |Due(es, key, o, at, b)| + surplus
    && (lacking == 0 && surplus == 0 ==> Due(es, key, o, at, n) + Bytes(sent) == Due(es, key, o, at, b))
    && (ended <==> Complete(log) && |log| > offset)
  }

  lemma NothingAccounts(es: seq<Event<Chunk>>, key: Key, o: nat, at: nat, relayed: set<nat>, n: nat)
    requires at <= |es| && n <= |es| && Settled(es, key, o, at, n)
    ensures Accounts(es, key, o, at, relayed, n, n)
  {
  }

  /** The loop leaves out an event that does not reach past its position. */
  lemma RelaySkips(key: Key, offset: nat, es: seq<Event<Chunk>>, e: Event<Chunk>)
    requires !Reaches(key, offset, e.payload) && (e.payload.key == key ==> e.payload.data != [])
    ensures Relay(key, offset, [e] + es) == Relay(key, offset, es)
  {
    assert ([e] + es)[1..] == es;
  }

  /** It sends what is left of one that does, and goes on unless that is the end. */
  lemma RelaySends(key: Key, offset: nat, es: seq<Event<Chunk>>, e: Event<Chunk>)
    requires Reaches(key, offset, e.payload) && e.payload.data != []
    ensures var rest := Rest(e.payload, offset);
            && rest.data != []
            && (rest.IsEnd() ==> Bytes(Relay(key, offset, [e] + es).0) == rest.data && Relay(key, offset, [e] + es).1)
            && (!rest.IsEnd() ==>
                  && Bytes(Relay(key, offset, [e] + es).0) == rest.data + Bytes(Relay(key, offset, es).0)
                  && Relay(key, offset, [e] + es).1 == Relay(key, offset, es).1)
  {
    RestReaches(e.payload, offset);
    var rest, more := Rest(e.payload, offset), Relay(key, offset, es).0;
    assert ([e] + es)[1..] == es && ([rest] + more)[1..] == more && [rest][1..] == [];
    assert Bytes([rest]) == rest.data + Bytes([]);
  }

  /** An event that does not reach the tailer, or that it leaves out. */
  lemma UnsentAccounts(es: seq<Event<Chunk>>, key: Key, o: nat, at: nat, relayed: set<nat>, n: nat, b: nat)
    requires RowStream(es, key) && at <= |es| && n < b <= |es| && Settled(es, key, o, at, n)
    requires n !in relayed || !Reaches(key, Resume(es, key, o, at), es[n].payload)
    requires !Lost(es, key, Resume(es, key, o, at), relayed, n) && Accounts(es, key, o, at, relayed, n + 1, b)
    ensures Accounts(es, key, o, at, relayed, n, b)
  {
    NothingDue(es, key, o, at, n);
    assert RowEventOk(es, key, n);
    if n in relayed { RelaySkips(key, Resume(es, key, o, at), KeptFrom(es, relayed, n + 1, b), es[n]); }
  }

  lemma LostAccounts(es: seq<Event<Chunk>>, key: Key, o: nat, at: nat, relayed: set<nat>, n: nat, b: nat)
    requires RowStream(es, key) && at <= |es| && n < b <= |es|
    requires Lost(es, key, Resume(es, key, o, at), relayed, n) && Accounts(es, key, o, at, relayed, n + 1, b)
    ensures Accounts(es, key, o, at, relayed, n, b)
  {
    InsertionDue(es, key, o, at, n);
  }

  lemma EchoAccounts(es: seq<Event<Chunk>>, key: Key, o: nat, at: nat, relayed: set<nat>, n: nat, b: nat)
    requires RowStream(es, key) && at <= |es| && n < b <= |es| && Settled(es, key, o, at, n)
    requires n in relayed && es[n].kind != Created && Reaches(key, Resume(es, key, o, at), es[n].payload)
    requires Accounts(es, key, o, at, relayed, n + 1, b)
    ensures Accounts(es, key, o, at, relayed, n, b)
  {
    DeletionReaches(es, key, o, at, n);
    NothingDue(es, key, o, at, n);
    assert RowEventOk(es, key, n);
    RelaySends(key, Resume(es, key, o, at), KeptFrom(es, relayed, n + 1, b), es[n]);
  }

  lemma SentAccounts(es: seq<Event<Chunk>>, key: Key, o: nat, at: nat, relayed: set<nat>, n: nat, b: nat)
    requires RowStream(es, key) && at <= |es| && n < b <= |es|
    requires n in relayed && es[n].kind == Created && Reaches(key, Resume(es, key, o, at), es[n].payload)
    requires !Complete(LogAt(es, key, n + 1)) && Accounts(es, key, o, at, relayed, n + 1, b)
    ensures Accounts(es, key, o, at, relayed, n, b)
  {
    InsertionDue(es, key, o, at, n);
    assert RowEventOk(es, key, n);
    var offset, kept := Resume(es, key, o, at), KeptFrom(es, relayed, n + 1, b);
    RelaySends(key, offset, kept, es[n]);
    Associate(Due(es, key, o, at, n), Rest(es[n].payload, offset).data, Bytes(Relay(key, offset, kept).0));
  }

  /** Once the log is complete nothing can be lost or sent again. */
  lemma {:induction false} NothingAfterEnd(es: seq<Event<Chunk>>, key: Key, offset: nat, relayed: set<nat>, n: nat, b: nat)
    requires RowStream(es, key) && n <= b <= |es| && Complete(LogAt(es, key, n))
    ensures Lacking(es, key, offset, relayed, n, b) == 0 == Surplus(es, key, offset, relayed, n, b)
    ensures LogAt(es, key, b) == LogAt(es, key, n)
    decreases b - n
  {
    if n < b {
      assert RowEventOk(es, key, n);
      NothingAfterEnd(es, key, offset, relayed, n + 1, b);
    }
  }

  lemma EndAccounts(es: seq<Event<Chunk>>, key: Key, o: nat, at: nat, relayed: set<nat>, n: nat, b: nat)
    requires RowStream(es, key) && at <= |es| && n < b <= |es|
    requires n in relayed && es[n].kind == Created && Reaches(key, Resume(es, key, o, at), es[n].payload)
    requires Complete(LogAt(es, key, n + 1))
    ensures Accounts(es, key, o, at, relayed, n, b)
  {
    var offset := Resume(es, key, o, at);
    InsertionDue(es, key, o, at, n);
    assert RowEventOk(es, key, n);
    RelaySends(key, offset, KeptFrom(es, relayed, n + 1, b), es[n]);
    NothingAfterEnd(es, key, offset, relayed, n + 1, b);
    assert Lacking(es, key, offset, relayed, n, b) == 0 && Surplus(es, key, offset, relayed, n, b) == 0;
    assert Due(es, key, o, at, b) == Due(es, key, o, at, n + 1);
  }

  lemma {:induction false} RelayAccounts(es: seq<Event<Chunk>>, key: Key, o: nat, at: nat, relayed: set<nat>, n: nat, b: nat)
    requires RowStream(es, key) && at <= |es| && n <= b <= |es| && Settled(es, key, o, at, n)
    requires EndNotLost(es, key, Resume(es, key, o, at), relayed, n, b)
    ensures Accounts(es, key, o, at, relayed, n, b)
    decreases b - n
  {
    if n == b {
      NothingAccounts(es, key, o, at, relayed, n);
    } else if es[n].kind == Created && Reaches(key, Resume(es, key, o, at), es[n].payload) {
      InsertionDue(es, key, o, at, n);
      RestReaches(es[n].payload, Resume(es, key, o, at));
      if Complete(LogAt(es, key, n + 1)) {
        EndAccounts(es, key, o, at, relayed, n, b);
      } else {
        RelayAccounts(es, key, o, at, relayed, n + 1, b);
        if n in relayed { SentAccounts(es, key, o, at, relayed, n, b); } else { LostAccounts(es, key, o, at, relayed, n, b); }
      }
    } else {
      NothingDue(es, key, o, at, n);
      RelayAccounts(es, key, o, at, relayed, n + 1, b);
      if n in relayed && Reaches(key, Resume(es, key, o, at), es[n].payload) {
        EchoAccounts(es, key, o, at, relayed, n, b);
      } else {
        UnsentAccounts(es, key, o, at, relayed, n, b);
      }
    }
  }

  /* ---------- Main results ---------- */

  /** Everything the caller is sent: the stored part, then the relayed chunks. */
  function Tail(key: Key, o: nat, stored: seq<byte>, es: seq<Event<Chunk>>): seq<byte> {
    stored + Bytes(Relay(key, o + |stored|, es).0)
  }

  /** Conservation: whatever the offset, however the subscription, the snapshot and the end of
      the stream fall, and whichever events do not reach the tailer, what the caller gets and
      what is lost come to the log from that offset and what is sent again. If nothing is
      either, the caller gets the log, nothing missed, repeated or out of order. The relay
      stops by itself exactly when the end marker lies beyond both the snapshot and the offset. */
  lemma TailAccounts(es: seq<Event<Chunk>>, key: Key, o: nat, a: nat, at: nat, b: nat, relayed: set<nat>)
    requires RowStream(es, key) && a <= at <= |es| && a <= b <= |es|
    requires EndNotLost(es, key, Resume(es, key, o, at), relayed, a, b)
    ensures var stored, offset := From(LogAt(es, key, at), o), Resume(es, key, o, at);
            var tail := Tail(key, o, stored, KeptFrom(es, relayed, a, b));
            var lacking, surplus := Lacking(es, key, offset, relayed, a, b), Surplus(es, key, offset, relayed, a, b);
            var log := LogAt(es, key, Max(at, b));
            && |tail| + lacking == |From(log, o)| + surplus
            && (lacking == 0 && surplus == 0 ==> tail == From(log, o))
            && (Relay(key, o + |stored|, KeptFrom(es, relayed, a, b)).1 <==> Complete(log) && |log| > o && !Complete(LogAt(es, key, at)))
  {
    StartsSettled(es, key, o, a, at);
    RelayAccounts(es, key, o, at, relayed, a, b);
    LogGrows(es, key, at, Max(at, b));
    EndsBeyond(LogAt(es, key, at), LogAt(es, key, Max(at, b)), o);
    TailIsDueAndSent(es, key, o, a, at, b, relayed);
  }

  lemma StartsSettled(es: seq<Event<Chunk>>, key: Key, o: nat, a: nat, at: nat)
    requires a <= at <= |es|
    ensures Settled(es, key, o, at, a) && Due(es, key, o, at, a) == From(LogAt(es, key, at), o)
    ensures o + |From(LogAt(es, key, at), o)| == Resume(es, key, o, at)
  {
  }

  lemma TailIsDueAndSent(es: seq<Event<Chunk>>, key: Key, o: nat, a: nat, at: nat, b: nat, relayed: set<nat>)
    requires a <= at <= |es| && a <= b <= |es|
    ensures var stored, kept := From(LogAt(es, key, at), o), KeptFrom(es, relayed, a, b);
            && Relay(key, o + |stored|, kept) == Relay(key, Resume(es, key, o, at), kept)
            && Tail(key, o, stored, kept) == Due(es, key, o, at, a) + Bytes(Relay(key, Resume(es, key, o, at), kept).0)
  {
    StartsSettled(es, key, o, a, at);
  }

  lemma EndsBeyond(early: seq<byte>, log: seq<byte>, o: nat)
    requires early <= log && (Complete(early) ==> log == early)
    ensures Complete(log) && |log| > Max(o, |early|) <==> Complete(log) && |log| > o && !Complete(early)
  {
  }

  lemma {:induction false} LackingIff(es: seq<Event<Chunk>>, key: Key, offset: nat, relayed: set<nat>, n: nat, b: nat)
    requires RowStream(es, key) && b <= |es|
    ensures Lacking(es, key, offset, relayed, n, b) == 0 <==> NoneLost(es, key, offset, relayed, n, b)
    decreases b - n
  {
    if n < b {
      LackingIff(es, key, offset, relayed, n + 1, b);
      assert RowEventOk(es, key, n);
      if Lost(es, key, offset, relayed, n) { RestReaches(es[n].payload, offset); }
    }
  }

  lemma {:induction false} SurplusIff(es: seq<Event<Chunk>>, key: Key, offset: nat, relayed: set<nat>, n: nat, b: nat)
    requires RowStream(es, key) && b <= |es|
    ensures Surplus(es, key, offset, relayed, n, b) == 0 <==> NoneEchoed(es, key, offset, relayed, n, b)
    decreases b - n
  {
    if n < b {
      SurplusIff(es, key, offset, relayed, n + 1, b);
      assert RowEventOk(es, key, n);
      if Echoed(es, key, offset, relayed, n) { RestReaches(es[n].payload, offset); }
    }
  }

  /** If every event reaches the tailer, the tail is the log exactly when no chunk that reaches
      past the resume position is deleted before the log is complete: the relay does not tell
      deletions from insertions. */
  lemma TailIsExactIff(es: seq<Event<Chunk>>, key: Key, o: nat, a: nat, at: nat, b: nat, relayed: set<nat>)
    requires RowStream(es, key) && a <= at <= |es| && a <= b <= |es| && forall m: nat :: a <= m < b ==> m in relayed
    ensures Tail(key, o, From(LogAt(es, key, at), o), es[a..b]) == From(LogAt(es, key, Max(at, b)), o) <==>
            NoneEchoed(es, key, Resume(es, key, o, at), relayed, a, b)
  {
    TailAccounts(es, key, o, a, at, b, relayed);
    AllKept(es, relayed, a, b);
    LackingIff(es, key, Resume(es, key, o, at), relayed, a, b);
    SurplusIff(es, key, Resume(es, key, o, at), relayed, a, b);
  }

  /** For example, if a run is deleted after its first chunk. */
  lemma DeletionIsSentAgain(key: Key, c: Chunk)
    requires c == Chunk(key, 0, [STX, 65])
    ensures var es := [Event(Created, c, 0), Event(Deleted, c, 0)];
            RowStream(es, key) && LogAt(es, key, 2) == c.data && Tail(key, 0, [], es) == c.data + c.data
  {
    var es := [Event(Created, c, 0), Event(Deleted, c, 0)];
    assert LogAt(es, key, 0) == [] && LogAt(es, key, 1) == [] + c.data == c.data && LogAt(es, key, 2) == LogAt(es, key, 1);
    assert es == [es[0]] + [es[1]] && [es[1]] == [es[1]] + [];
    RelaySends(key, 0, [es[1]], es[0]);
    RelaySends(key, 0, [], es[1]);
  }

  lemma {:induction false} AllKept(es: seq<Event<Chunk>>, relayed: set<nat>, a: nat, b: nat)
    requires a <= b <= |es| && forall m: nat :: a <= m < b ==> m in relayed
    ensures KeptFrom(es, relayed, a, b) == es[a..b]
    decreases b - a
  {
    if a < b { AllKept(es, relayed, a + 1, b); }
  }

  /** While rows are deleted only by coalescing, the tail is the log exactly when no insertion
      that reaches past the resume position is lost, if the end of the log is not; otherwise
      it lacks as many bytes as were lost. */
  lemma TailLacksIff(es: seq<Event<Chunk>>, key: Key, o: nat, a: nat, at: nat, b: nat, relayed: set<nat>)
    requires ChunkStream(es, key) && a <= at <= |es| && a <= b <= |es|
    requires EndNotLost(es, key, Resume(es, key, o, at), relayed, a, b)
    ensures var tail, log := Tail(key, o, From(LogAt(es, key, at), o), KeptFrom(es, relayed, a, b)), From(LogAt(es, key, Max(at, b)), o);
            && |tail| + Lacking(es, key, Resume(es, key, o, at), relayed, a, b) == |log|
            && (tail == log <==> NoneLost(es, key, Resume(es, key, o, at), relayed, a, b))
  {
    NoEchoes(es, key, Resume(es, key, o, at), relayed);
    TailAccounts(es, key, o, a, at, b, relayed);
    LackingIff(es, key, Resume(es, key, o, at), relayed, a, b);
    SurplusIff(es, key, Resume(es, key, o, at), relayed, a, b);
  }

  lemma NoEchoes(es: seq<Event<Chunk>>, key: Key, offset: nat, relayed: set<nat>)
    requires ChunkStream(es, key)
    ensures RowStream(es, key) && NoneEchoed(es, key, offset, relayed, 0, |es|)
  {
    forall m | 0 <= m < |es| ensures RowEventOk(es, key, m) && !Echoed(es, key, offset, relayed, m) { assert EventOk(es, key, m); }
  }

  /** So with neither, the tail is the log. */
  lemma TailIsExact(es: seq<Event<Chunk>>, key: Key, o: nat, a: nat, at: nat, b: nat)
    requires ChunkStream(es, key) && a <= at <= |es| && a <= b <= |es|
    ensures var stored := From(LogAt(es, key, at), o);
            var log := LogAt(es, key, Max(at, b));
            && Tail(key, o, stored, es[a..b]) == From(log, o)
            && (Relay(key, o + |stored|, es[a..b]).1 <==> Complete(log) && |log| > o && !Complete(LogAt(es, key, at)))
  {
    var relayed := Positions(|es|);
    NoEchoes(es, key, Resume(es, key, o, at), relayed);
    AllKept(es, relayed, a, b);
    TailAccounts(es, key, o, a, at, b, relayed);
    LackingIff(es, key, Resume(es, key, o, at), relayed, a, b);
    SurplusIff(es, key, Resume(es, key, o, at), relayed, a, b);
  }

  function Positions(n: nat): (r: set<nat>)
    ensures forall p: nat :: p in r <==> p < n
  {
    if n == 0 then {} else Positions(n - 1) + {n - 1}
  }

  /** The same over the broker: what the tailer has received is such a stretch of events. */
  lemma TailThroughBroker(cap: nat, steps: seq<Step<Chunk>>, ch: ChanId, key: Key, o: nat, at: nat)
    requires var s := Run(cap, steps);
             ch in s.chans && RowStream(s.log, key) && s.chans[ch].start <= at <= |s.log|
    ensures var s := Run(cap, steps);
            var c := s.chans[ch];
            var got := c.start + |c.received|;
            && got <= |s.log|
            && (Tail(key, o, From(LogAt(s.log, key, at), o), c.received) == From(LogAt(s.log, key, Max(at, got)), o) <==>
                NoneEchoed(s.log, key, Resume(s.log, key, o, at), Positions(|s.log|), c.start, got))
  {
    ReceivedIsStretch(cap, steps, ch);
    var s := Run(cap, steps);
    var c := s.chans[ch];
    var got := c.start + |c.received|;
    assert c.received == s.log[c.start..got];
    TailIsExactIff(s.log, key, o, c.start, at, got, Positions(|s.log|));
  }
}
