/** Writer, tables, events and tailer together: the row events that a logging session
    causes (the notify trigger fires for each row inserted or deleted) are a stream that the
    tailer follows exactly. */
module LogPipeline {
  import opened Prelude
  import opened Broker
  import opened Chunks
  import opened LogStore
  import opened PhaseWriter
  import opened Tailer

  function Deletions(rows: seq<Chunk>): seq<Event<Chunk>> {
    if rows == [] then [] else Deletions(rows[..|rows| - 1]) + [Event(Deleted, rows[|rows| - 1], 0)]
  }

  /** Storing the final chunk also deletes all the phase's rows; a rolled back transaction
      announces nothing. */
  function PutEvents(db: Db, c: Chunk): seq<Event<Chunk>> {
    if !c.IsEnd() then [Event(Created, c, 0)]
    else if c.key in db.logs then []
    else [Event(Created, c, 0)] + Deletions(Rows(Insert(db, c).chunks, c.key))
  }

  /** So the chunk that ends a log is announced, and then the deletion of every row of it. */
  lemma {:induction false} DeletionsAre(rows: seq<Chunk>)
    ensures |Deletions(rows)| == |rows| && forall i :: 0 <= i < |rows| ==> Deletions(rows)[i] == Event(Deleted, rows[i], 0)
  {
    if rows != [] { DeletionsAre(rows[..|rows| - 1]); }
  }

  lemma EndAnnouncesDeletions(db: Db, c: Chunk)
    requires c.IsEnd() && c.key !in db.logs
    ensures var es, rows := PutEvents(db, c), Rows(db.chunks, c.key) + [c];
            && |es| == 1 + |rows| && es[0] == Event(Created, c, 0)
            && forall i :: 0 <= i < |rows| ==> es[1 + i] == Event(Deleted, rows[i], 0)
  {
    RowsOfAppend(db.chunks, c, c.key);
    DeletionsAre(Rows(db.chunks, c.key) + [c]);
  }

  /** What the deliveries of an upload announce. */
  function PutTimesEvents(db: Db, c: Chunk, n: nat): seq<Event<Chunk>> {
    if n == 0 then [] else PutTimesEvents(db, c, n - 1) + PutEvents(PutTimes(db, c, n - 1).0, c)
  }

  function StepEvents(key: Key, s: Session, op: Op): seq<Event<Chunk>> {
    var data := DataOf(s.started, op);
    if op.Other? then if op.chunk.key == key then [] else PutEvents(s.db, op.chunk)
    else if data != [] then PutTimesEvents(s.db, Chunk(key, s.offset, data), op.net.deliveries)
    else []
  }

  /** One delivery announces what it stores; further deliveries of an end announce nothing. */
  lemma {:induction false} CountedEvents(db: Db, c: Chunk, n: nat)
    requires Takes(Rows(db.chunks, c.key), c) && c.key !in db.logs && (n == 1 || (n > 1 && c.IsEnd()))
    ensures PutTimesEvents(db, c, n) == PutEvents(db, c)
  {
    if n == 1 {
      assert PutTimesEvents(db, c, 0) == [] && PutTimes(db, c, 0).0 == db;
    } else {
      CountedEvents(db, c, n - 1);
      PutTimesMoves(db, c, n - 1);
      assert PutEvents(PutTimes(db, c, n - 1).0, c) == [];
    }
  }

  function Events(key: Key, db: Db, ops: seq<Op>): seq<Event<Chunk>> {
    if ops == [] then []
    else Events(key, db, ops[..|ops| - 1]) + StepEvents(key, PhaseWriter.Run(key, db, ops[..|ops| - 1]), ops[|ops| - 1])
  }

  /* ---------- Extending a stream ---------- */

  lemma {:induction false} LogAtExtends(es: seq<Event<Chunk>>, more: seq<Event<Chunk>>, key: Key, n: nat)
    requires n <= |es|
    ensures LogAt(es + more, key, n) == LogAt(es, key, n)
  {
    if n > 0 { LogAtExtends(es, more, key, n - 1); }
  }

  function FullLog(es: seq<Event<Chunk>>, key: Key): seq<byte> { LogAt(es, key, |es|) }

  /** One more event may be appended. */
  ghost predicate Fits(es: seq<Event<Chunk>>, key: Key, e: Event<Chunk>) {
    var c, log := e.payload, FullLog(es, key);
    c.key == key ==>
      && c.data != []
      && (e.kind == Created ==> c.offset == |log| && !Complete(log))
      && (e.kind != Created ==> Complete(log) && c.NextOffset() <= |log|)
  }

  lemma AppendEvent(es: seq<Event<Chunk>>, key: Key, e: Event<Chunk>)
    requires ChunkStream(es, key) && Fits(es, key, e)
    ensures ChunkStream(es + [e], key)
    ensures FullLog(es + [e], key) ==
            if e.kind == Created && e.payload.key == key then FullLog(es, key) + e.payload.data else FullLog(es, key)
  {
    var es' := es + [e];
    forall n | 0 <= n < |es'| ensures EventOk(es', key, n) {
      LogAtExtends(es, [e], key, n);
      if n < |es| { assert EventOk(es, key, n); }
    }
    LogAtExtends(es, [e], key, |es|);
  }

  lemma {:induction false} AppendDeletions(es: seq<Event<Chunk>>, key: Key, rows: seq<Chunk>)
    requires ChunkStream(es, key)
    requires forall i :: 0 <= i < |rows| && rows[i].key == key ==>
               rows[i].data != [] && Complete(FullLog(es, key)) && rows[i].NextOffset() <= |FullLog(es, key)|
    ensures ChunkStream(es + Deletions(rows), key) && FullLog(es + Deletions(rows), key) == FullLog(es, key)
  {
    if rows == [] {
      assert es + [] == es;
    } else {
      var init, e := rows[..|rows| - 1], Event(Deleted, rows[|rows| - 1], 0);
      AppendDeletions(es, key, init);
      AppendEvent(es + Deletions(init), key, e);
      assert es + Deletions(rows) == (es + Deletions(init)) + [e];
    }
  }

  lemma {:induction false} RowsHaveKey(chunks: seq<Chunk>, key: Key)
    ensures forall i :: 0 <= i < |Rows(chunks, key)| ==> Rows(chunks, key)[i].key == key
  {
    if chunks != [] { RowsHaveKey(chunks[..|chunks| - 1], key); }
  }

  /* ---------- Sessions ---------- */

  /** While every upload counts, the events spell out exactly what was sent. */
  ghost predicate EventsOk(key: Key, s: Session, ops: seq<Op>, es: seq<Event<Chunk>>) {
    && ChunkStream(es, key)
    && FullLog(es, key) == Sent(ops)
    && (!Ended(ops) ==> s.offset == |Sent(ops)| && !Complete(Sent(ops)))
  }

  lemma OthersEvents(key: Key, db: Db, c: Chunk, es: seq<Event<Chunk>>)
    requires ChunkStream(es, key) && c.key != key
    ensures ChunkStream(es + PutEvents(db, c), key) && FullLog(es + PutEvents(db, c), key) == FullLog(es, key)
  {
    var e := Event(Created, c, 0);
    AppendEvent(es, key, e);
    if c.IsEnd() {
      if c.key in db.logs {
        assert es + [] == es;
      } else {
        var rows := Rows(Insert(db, c).chunks, c.key);
        RowsHaveKey(Insert(db, c).chunks, c.key);
        AppendDeletions(es + [e], key, rows);
        Associate(es, [e], Deletions(rows));
      }
    }
  }

  lemma OwnEvents(key: Key, db: Db, c: Chunk, es: seq<Event<Chunk>>)
    requires ChunkStream(es, key) && !Complete(FullLog(es, key))
    requires c.key == key && c.data != [] && c.offset == |FullLog(es, key)|
    requires key !in db.logs && RowsOk(Rows(db.chunks, key), c.offset)
    ensures ChunkStream(es + PutEvents(db, c), key) && FullLog(es + PutEvents(db, c), key) == FullLog(es, key) + c.data
  {
    var e := Event(Created, c, 0);
    AppendEvent(es, key, e);
    if c.IsEnd() {
      FinalEvents(key, db, c, es + [e], es);
    }
  }

  lemma FinalEvents(key: Key, db: Db, c: Chunk, es': seq<Event<Chunk>>, es: seq<Event<Chunk>>)
    requires es' == es + [Event(Created, c, 0)] && ChunkStream(es', key)
    requires c.key == key && c.IsEnd() && key !in db.logs
    requires |FullLog(es', key)| == c.NextOffset() && Complete(FullLog(es', key))
    requires RowsOk(Rows(db.chunks, key), c.offset)
    ensures ChunkStream(es + PutEvents(db, c), key) && FullLog(es + PutEvents(db, c), key) == FullLog(es', key)
  {
    var rows := Rows(Insert(db, c).chunks, key);
    assert RowsOk(rows, c.NextOffset()) by {
      InsertKeeps(db, c);
      TakenInOrder(Rows(db.chunks, key), c);
    }
    DeletionsFit(es', key, rows);
    Associate(es, [Event(Created, c, 0)], Deletions(rows));
  }

  lemma DeletionsFit(es: seq<Event<Chunk>>, key: Key, rows: seq<Chunk>)
    requires ChunkStream(es, key) && Complete(FullLog(es, key)) && RowsOk(rows, |FullLog(es, key)|)
    ensures ChunkStream(es + Deletions(rows), key) && FullLog(es + Deletions(rows), key) == FullLog(es, key)
  {
    AppendDeletions(es, key, rows);
  }

  /** An operation with something to upload that counts. */
  lemma CountedStepOk(key: Key, s: Session, init: seq<Op>, ops: seq<Op>, es: seq<Event<Chunk>>)
    requires ops != [] && init == ops[..|ops| - 1] && SessionInv(key, s, init) && EventsOk(key, s, init, es)
    requires var op := ops[|ops| - 1]; Matters(init, op) && Counts(init, op)
    ensures EventsOk(key, PhaseWriter.Step(key, s, ops[|ops| - 1]), ops, es + StepEvents(key, s, ops[|ops| - 1]))
  {
    var op := ops[|ops| - 1];
    MattersIffData(init, op);
    var c := Chunk(key, s.offset, DataOf(s.started, op));
    CountedEvents(s.db, c, op.net.deliveries);
    OwnEvents(key, s.db, c, es);
    assert Sent(ops) == Sent(init) + c.data;
  }

  /** An operation with nothing to upload, or of another phase. */
  lemma IdleStepOk(key: Key, s: Session, init: seq<Op>, ops: seq<Op>, es: seq<Event<Chunk>>)
    requires ops != [] && init == ops[..|ops| - 1] && SessionInv(key, s, init) && EventsOk(key, s, init, es)
    requires !Matters(init, ops[|ops| - 1])
    ensures EventsOk(key, PhaseWriter.Step(key, s, ops[|ops| - 1]), ops, es + StepEvents(key, s, ops[|ops| - 1]))
  {
    var op := ops[|ops| - 1];
    IdleHistory(init, ops);
    IdleEvents(key, s, init, op);
    if op.Other? && op.chunk.key != key {
      OthersEvents(key, s.db, op.chunk, es);
    } else {
      assert es + [] == es;
    }
  }

  lemma IdleHistory(init: seq<Op>, ops: seq<Op>)
    requires ops != [] && init == ops[..|ops| - 1] && !Matters(init, ops[|ops| - 1])
    ensures Sent(ops) == Sent(init) && Ended(ops) == Ended(init)
  {
    MattersIffData(init, ops[|ops| - 1]);
    assert Sent(init) + [] == Sent(init);
  }

  lemma IdleEvents(key: Key, s: Session, init: seq<Op>, op: Op)
    requires s.started == HasWrite(init) && !Matters(init, op)
    ensures PhaseWriter.Step(key, s, op).offset == s.offset
    ensures StepEvents(key, s, op) == if op.Other? && op.chunk.key != key then PutEvents(s.db, op.chunk) else []
  {
    MattersIffData(init, op);
  }

  lemma {:induction false} SessionStreams(key: Key, db: Db, ops: seq<Op>)
    requires Blank(key, db) && AllCounted(ops)
    ensures EventsOk(key, PhaseWriter.Run(key, db, ops), ops, Events(key, db, ops))
  {
    if ops != [] {
      var init := ops[..|ops| - 1];
      SessionStreams(key, db, init);
      RunKeeps(key, db, init);
      var s, es := PhaseWriter.Run(key, db, init), Events(key, db, init);
      if Matters(init, ops[|ops| - 1]) {
        CountedStepOk(key, s, init, ops, es);
      } else {
        IdleStepOk(key, s, init, ops, es);
      }
    }
  }

  lemma {:induction false} EventsGrow(key: Key, db: Db, ops: seq<Op>, j: nat)
    requires j <= |ops|
    ensures Events(key, db, ops[..j]) <= Events(key, db, ops)
    decreases |ops|
  {
    if j == |ops| {
      assert ops[..j] == ops;
    } else {
      EventsGrow(key, db, ops[..|ops| - 1], j);
      assert ops[..|ops| - 1][..j] == ops[..j];
    }
  }

  /** The log as of the events of the first j operations is what those sent. */
  lemma EarlierEvents(key: Key, db: Db, ops: seq<Op>, j: nat)
    requires Blank(key, db) && AllCounted(ops) && j <= |ops|
    ensures |Events(key, db, ops[..j])| <= |Events(key, db, ops)|
    ensures LogAt(Events(key, db, ops), key, |Events(key, db, ops[..j])|) == Sent(ops[..j])
  {
    EventsGrow(key, db, ops, j);
    CountedSoFar(ops, j);
    SessionStreams(key, db, ops[..j]);
    var es, early := Events(key, db, ops), Events(key, db, ops[..j]);
    assert es == early + es[|early|..];
    LogAtExtends(early, es[|early|..], key, |early|);
  }

  /** What the unlimited read of a log within the database's size limit returns. */
  ghost predicate IsRead(key: Key, db: Db, o: nat, stored: seq<byte>) {
    var rows := ReadRows(db, key, o, 0);
    if rows == {} then stored == [] else stored in rows
  }

  lemma SnapshotIs(key: Key, db: Db, ops: seq<Op>, o: nat, stored: seq<byte>)
    requires Blank(key, db) && AllCounted(ops)
    requires |Sent(ops)| <= MAX_INT4 && IsRead(key, PhaseWriter.Run(key, db, ops).db, o, stored)
    ensures stored == From(Sent(ops), o)
  {
    CountedIsSent(ops);
    ReadsRightIffLogged(key, db, ops);
    var log := Sent(ops);
    assert ReadRows(PhaseWriter.Run(key, db, ops).db, key, o, 0) == WindowsOf(log, o, 0);
    assert Window(log, o, MAX_INT4) == From(log, o);
  }

  /* ---------- Main results ---------- */

  /** End to end: someone follows a phase's log from offset o, having subscribed when a
      events had been announced, read the tables after the first j operations (no earlier),
      and received the events up to b, as far as they were relayed. With what that read
      returned and the chunks sent since, they hold the log from o on, as of the later of the
      two, less what was lost with the events not relayed: all of it exactly when none of them
      was an insertion past where the read ended. As of the last event, the log is all that
      was sent. */
  lemma TailFollowsTheWriter(key: Key, db: Db, ops: seq<Op>, o: nat, a: nat, j: nat, b: nat, stored: seq<byte>, relayed: set<nat>)
    requires Blank(key, db) && AllCounted(ops)
    requires j <= |ops| && |Sent(ops[..j])| <= MAX_INT4
    requires a <= |Events(key, db, ops[..j])| <= |Events(key, db, ops)| && a <= b <= |Events(key, db, ops)|
    requires IsRead(key, PhaseWriter.Run(key, db, ops[..j]).db, o, stored)
    requires var es := Events(key, db, ops); EndNotLost(es, key, Resume(es, key, o, |Events(key, db, ops[..j])|), relayed, a, b)
    ensures var es, at := Events(key, db, ops), |Events(key, db, ops[..j])|;
            var tail, log := Tail(key, o, stored, KeptFrom(es, relayed, a, b)), From(LogAt(es, key, Max(at, b)), o);
            && |tail| + Lacking(es, key, Resume(es, key, o, at), relayed, a, b) == |log|
            && (tail == log <==> NoneLost(es, key, Resume(es, key, o, at), relayed, a, b))
    ensures LogAt(Events(key, db, ops), key, |Events(key, db, ops)|) == Sent(ops)
  {
    EarlierRead(key, db, ops, o, j, stored);
    EventsSpellTheLog(key, db, ops);
    TailWithin(Events(key, db, ops), key, o, a, |Events(key, db, ops[..j])|, b, stored, relayed);
  }

  lemma EventsSpellTheLog(key: Key, db: Db, ops: seq<Op>)
    requires Blank(key, db) && AllCounted(ops)
    ensures ChunkStream(Events(key, db, ops), key) && FullLog(Events(key, db, ops), key) == Sent(ops)
  {
    SessionStreams(key, db, ops);
  }

  lemma EarlierRead(key: Key, db: Db, ops: seq<Op>, o: nat, j: nat, stored: seq<byte>)
    requires Blank(key, db) && AllCounted(ops)
    requires j <= |ops| && |Sent(ops[..j])| <= MAX_INT4
    requires IsRead(key, PhaseWriter.Run(key, db, ops[..j]).db, o, stored)
    ensures |Events(key, db, ops[..j])| <= |Events(key, db, ops)|
    ensures stored == From(LogAt(Events(key, db, ops), key, |Events(key, db, ops[..j])|), o)
  {
    EarlierEvents(key, db, ops, j);
    CountedSoFar(ops, j);
    SnapshotIs(key, db, ops[..j], o, stored);
  }

  lemma TailWithin(es: seq<Event<Chunk>>, key: Key, o: nat, a: nat, at: nat, b: nat, stored: seq<byte>, relayed: set<nat>)
    requires ChunkStream(es, key) && a <= at <= |es| && a <= b <= |es| && stored == From(LogAt(es, key, at), o)
    requires EndNotLost(es, key, Resume(es, key, o, at), relayed, a, b)
    ensures var tail, log := Tail(key, o, stored, KeptFrom(es, relayed, a, b)), From(LogAt(es, key, Max(at, b)), o);
            && |tail| + Lacking(es, key, Resume(es, key, o, at), relayed, a, b) == |log|
            && (tail == log <==> NoneLost(es, key, Resume(es, key, o, at), relayed, a, b))
  {
    TailLacksIff(es, key, o, a, at, b, relayed);
  }

  /** Whoever subscribed when a events had been announced, read the tables after the first j
      operations and has received all events since holds all that was sent from o on. */
  ghost predicate TailIsRight(key: Key, db: Db, ops: seq<Op>, o: nat, a: nat, j: nat, stored: seq<byte>) {
    j <= |ops| && a <= |Events(key, db, ops[..j])| <= |Events(key, db, ops)| && IsRead(key, PhaseWriter.Run(key, db, ops[..j]).db, o, stored)
    ==> Tail(key, o, stored, Events(key, db, ops)[a..]) == From(Sent(ops), o)
  }

  lemma {:induction false} SentGrows(ops: seq<Op>, j: nat)
    requires j <= |ops|
    ensures |Sent(ops[..j])| <= |Sent(ops)|
    decreases |ops|
  {
    if j == |ops| {
      assert ops[..j] == ops;
    } else {
      SentGrows(ops[..|ops| - 1], j);
      assert ops[..|ops| - 1][..j] == ops[..j];
    }
  }

  /** Someone who comes after the last event is given what a read returns and nothing else. */
  lemma TailOfLatecomer(key: Key, db: Db, ops: seq<Op>, stored: seq<byte>)
    requires IsRead(key, PhaseWriter.Run(key, db, ops).db, 0, stored)
    requires TailIsRight(key, db, ops, 0, |Events(key, db, ops)|, |ops|, stored)
    ensures stored == Sent(ops)
  {
    var es := Events(key, db, ops);
    assert ops[..|ops|] == ops && es[|es|..] == [] && Sent(ops)[0..] == Sent(ops);
    assert Bytes([]) == [] && stored + [] == stored;
  }

  /** A read that returns less than it may is complete. */
  lemma ReadSaysAll(log: seq<byte>, sent: seq<byte>)
    requires log != [] && |sent| < MAX_INT4 && WindowsOf(log, 0, 0) == {sent}
    ensures log == sent
  {
    var w := Window(log, 0, MAX_INT4);
    assert w in {sent};
    assert From(log, 0) == log;
    if |log| <= MAX_INT4 { assert w == log; }
  }

  lemma CountedIfLatecomersRight(key: Key, db: Db, ops: seq<Op>)
    requires Blank(key, db) && |Sent(ops)| < MAX_INT4 && ops != [] && AllCounted(ops[..|ops| - 1])
    requires forall stored :: IsRead(key, PhaseWriter.Run(key, db, ops).db, 0, stored) ==> stored == Sent(ops)
    ensures AllCounted(ops)
  {
    ReadsAreWindows(key, db, ops, 0, 0);
    LateIff(ops);
    EndIsLogged(ops);
    var rows := ReadRows(PhaseWriter.Run(key, db, ops).db, key, 0, 0);
    assert rows == {} ==> IsRead(key, PhaseWriter.Run(key, db, ops).db, 0, []);
    forall r | r in rows ensures r == Sent(ops) { assert IsRead(key, PhaseWriter.Run(key, db, ops).db, 0, r); }
    OnlyRead(rows, Logged(ops), Late(ops), Sent(ops));
    UncountedShows(ops);
  }

  lemma OnlyRead(rows: set<seq<byte>>, logged: seq<byte>, late: seq<byte>, sent: seq<byte>)
    requires rows == WindowsOf(logged, 0, 0) + WindowsOf(late, 0, 0) && |sent| < MAX_INT4
    requires if rows == {} then sent == [] else forall r :: r in rows ==> r == sent
    requires late != [] ==> EndsInEtx(logged) && !EndsInEtx(late)
    ensures logged == sent && late == []
  {
    if logged != [] {
      assert Window(logged, 0, MAX_INT4) in rows;
      ReadSaysAll(logged, sent);
    }
    if late != [] {
      assert Window(late, 0, MAX_INT4) in rows;
      ReadSaysAll(late, sent);
    }
  }

  lemma TailRightIfCounted(key: Key, db: Db, ops: seq<Op>, o: nat, a: nat, j: nat, stored: seq<byte>)
    requires Blank(key, db) && |Sent(ops)| <= MAX_INT4 && AllCounted(ops)
    ensures TailIsRight(key, db, ops, o, a, j, stored)
  {
    var es := Events(key, db, ops);
    if j <= |ops| && a <= |Events(key, db, ops[..j])| <= |es| && IsRead(key, PhaseWriter.Run(key, db, ops[..j]).db, o, stored) {
      SentGrows(ops, j);
      EarlierRead(key, db, ops, o, j, stored);
      EventsSpellTheLog(key, db, ops);
      WholeTail(es, key, o, a, |Events(key, db, ops[..j])|, stored);
    }
  }

  lemma WholeTail(es: seq<Event<Chunk>>, key: Key, o: nat, a: nat, at: nat, stored: seq<byte>)
    requires ChunkStream(es, key) && a <= at <= |es| && stored == From(LogAt(es, key, at), o)
    ensures Tail(key, o, stored, es[a..]) == From(FullLog(es, key), o)
  {
    TailIsExact(es, key, o, a, at, |es|);
    assert es[a..|es|] == es[a..];
  }

  /** All followers are right as things stand after some operations. */
  ghost predicate AllTailsRight(key: Key, db: Db, ops: seq<Op>) {
    forall o: nat, a: nat, j: nat, stored :: TailIsRight(key, db, ops, o, a, j, stored)
  }

  lemma {:induction false} RightTailsCount(key: Key, db: Db, ops: seq<Op>, i: nat)
    requires Blank(key, db) && |Sent(ops)| < MAX_INT4 && i <= |ops|
    requires forall n :: 0 <= n <= |ops| ==> AllTailsRight(key, db, ops[..n])
    ensures AllCounted(ops[..i])
    decreases i
  {
    if i > 0 {
      RightTailsCount(key, db, ops, i - 1);
      var now := ops[..i];
      assert now[..i - 1] == ops[..i - 1];
      SentGrows(ops, i);
      assert AllTailsRight(key, db, now);
      forall stored | IsRead(key, PhaseWriter.Run(key, db, now).db, 0, stored) ensures stored == Sent(now) {
        assert TailIsRight(key, db, now, 0, |Events(key, db, now)|, |now|, stored);
        TailOfLatecomer(key, db, now, stored);
      }
      CountedIfLatecomersRight(key, db, now);
    }
  }

  /** At every point everybody who follows the log, whenever they subscribe and read and from
      whatever offset, has all that was sent by then once they have received all events,
      exactly when every operation with something to upload gets it stored exactly once, before
      the log has ended. */
  lemma EveryTailIsRightIff(key: Key, db: Db, ops: seq<Op>)
    requires Blank(key, db) && |Sent(ops)| < MAX_INT4
    ensures (forall n :: 0 <= n <= |ops| ==> AllTailsRight(key, db, ops[..n])) <==> AllCounted(ops)
  {
    if AllCounted(ops) {
      forall n | 0 <= n <= |ops| ensures AllTailsRight(key, db, ops[..n]) {
        CountedSoFar(ops, n);
        SentGrows(ops, n);
        forall o: nat, a: nat, j: nat, stored ensures TailIsRight(key, db, ops[..n], o, a, j, stored) {
          TailRightIfCounted(key, db, ops[..n], o, a, j, stored);
        }
      }
    }
    if forall n :: 0 <= n <= |ops| ==> AllTailsRight(key, db, ops[..n]) {
      RightTailsCount(key, db, ops, |ops|);
      assert ops[..|ops|] == ops;
    }
  }

  /** After a lost upload, positions in events are ahead of positions in the stored log, and a
      follower that had subscribed before reading the log may be sent a part of it twice. */
  lemma LostUploadMayBeSentTwice(key: Key)
    ensures var db, ops := Db([], map[]), [Write([65], LOST), Write([66], ONCE)];
            && Blank(key, db)
            && IsRead(key, PhaseWriter.Run(key, db, ops).db, 0, [66])
            && Tail(key, 0, [66], Events(key, db, ops)) == [66, 66]
  {
    var db, ops := Db([], map[]), [Write([65], LOST), Write([66], ONCE)];
    EventsAfterLoss(key, db, ops[0], ops[1]);
    ReadAfterLoss(key, db, ops[0], ops[1]);
    SentAgain(key, Chunk(key, 2, [66]));
  }

  lemma EventsAfterLoss(key: Key, db: Db, a: Op, b: Op)
    requires a == Write([65], LOST) && b == Write([66], ONCE)
    ensures Events(key, db, [a, b]) == [Event(Created, Chunk(key, 2, [66]), 0)]
  {
    assert [a, b][..1] == [a] && [a][..0] == [];
    assert PhaseWriter.Run(key, db, []) == Session(db, false, 0);
    assert PhaseWriter.Run(key, db, [a]) == Session(db, true, 2);
    assert Events(key, db, []) == [] && Events(key, db, [a]) == [];
    var c := Chunk(key, 2, [66]);
    assert PutTimesEvents(db, c, 1) == PutTimesEvents(db, c, 0) + PutEvents(db, c);
  }

  lemma ReadAfterLoss(key: Key, db: Db, a: Op, b: Op)
    requires Blank(key, db) && a == Write([65], LOST) && b == Write([66], ONCE)
    ensures ReadRows(PhaseWriter.Run(key, db, [a, b]).db, key, 0, 0) == {[66]}
  {
    OneMore([], a);
    OneMore([a], b);
    assert [] + [a] == [a] && [a] + [b] == [a, b];
    ArrivingOf(false, a);
    ArrivingOf(true, b);
    Reading(key, db, [a, b], [66], []);
  }

  lemma SentAgain(key: Key, c: Chunk)
    requires c == Chunk(key, 2, [66])
    ensures Tail(key, 0, [66], [Event(Created, c, 0)]) == [66, 66]
  {
    var es := [Event(Created, c, 0)];
    assert es[1..] == [] && [c] + [] == [c] && [c][1..] == [];
    assert Relay(key, 1, es).0 == [c];
    assert Bytes([]) == [] && Bytes([c]) == c.data + Bytes([]);
  }
}
