/**
The writer of a phase's log (internal/run/phase_writer.go) together with the tables it
writes to. A session is any number of writes and closes in any order, and anything other
phases do in between. An upload may not reach the server, and one whose answer is lost is
sent again by the client, so it may reach the server any number of times.
 */
module PhaseWriter {
  import opened Prelude
  import opened Chunks
  import opened LogStore

  /** The fields of the writer, and the tables. */
  datatype Session = Session(db: Db, started: bool, offset: nat)

  /** How often an upload reaches the server, and whether the last answer reaches the writer. */
  datatype Net = Net(deliveries: nat, answered: bool)

  datatype Op =
    | Write(payload: seq<byte>, net: Net)
    | Close(net: Net)
    | Other(chunk: Chunk)

  /** The same upload over and over; each delivery makes a row of its own. */
  function PutTimes(db: Db, c: Chunk, n: nat): (Db, bool) {
    if n == 0 then (db, false) else Put(PutTimes(db, c, n - 1).0, c)
  }

  lemma PutOnceMore(db: Db, c: Chunk, n: nat, d: Db)
    requires d == PutTimes(db, c, n).0
    ensures PutTimes(db, c, n + 1) == Put(d, c)
  {
  }

  /** PutChunk as the writer sees it: the chunk may be refused or not arrive. */
  function Upload(db: Db, key: Key, offset: nat, data: seq<byte>, net: Net): (Db, bool) {
    match NewChunk(key, offset, data)
    case Err(_) => (db, false)
    case Ok(c) =>
      var (db', ok) := PutTimes(db, c, net.deliveries);
      (db', ok && net.answered)
  }

  function WriteData(started: bool, payload: seq<byte>): seq<byte> {
    if started then payload else [STX] + payload
  }

  function CloseData(started: bool): seq<byte> {
    if started then [ETX] else [STX, ETX]
  }

  class Writer {
    const key: Key
    const tables: LogTables
    var started: bool
    var offset: nat

    constructor (key: Key, tables: LogTables)
      ensures this.key == key && this.tables == tables && !started && offset == 0
    {
      this.key, this.tables, started, offset := key, tables, false, 0;
    }

    /** The client's retries. */
    method Deliver(chunk: Chunk, times: nat) returns (ok: bool)
      modifies tables
      ensures (tables.Abs(), ok) == PutTimes(old(tables.Abs()), chunk, times)
    {
      ok := false;
      ghost var start := tables.Abs();
      for i := 0 to times
        invariant (tables.Abs(), ok) == PutTimes(start, chunk, i)
      {
        ghost var before := tables.Abs();
        ok := tables.PutChunk(chunk);
        PutOnceMore(start, chunk, i, before);
      }
    }

    method Send(data: seq<byte>, net: Net) returns (ok: bool)
      modifies tables
      ensures (tables.Abs(), ok) == Upload(old(tables.Abs()), key, offset, data, net)
    {
      var chunk := NewChunk(key, offset, data);
      if chunk.Err? {
        return false;
      }
      ok := Deliver(chunk.value, net.deliveries);
      ok := ok && net.answered;
    }

    /** The position moves on even when the upload fails. */
    method WriteBytes(p: seq<byte>, net: Net) returns (ok: bool)
      modifies this, tables
      ensures started && offset == old(offset) + |WriteData(old(started), p)|
      ensures (tables.Abs(), ok) == Upload(old(tables.Abs()), key, old(offset), WriteData(old(started), p), net)
    {
      var data := p;
      if !started {
        started := true;
        data := [STX] + data;
      }
      ok := Send(data, net);
      offset := offset + |data|;
    }

    method CloseLog(net: Net) returns (ok: bool)
      modifies tables
      ensures (tables.Abs(), ok) == Upload(old(tables.Abs()), key, offset, CloseData(started), net)
    {
      ok := Send(if started then [ETX] else [STX, ETX], net);
    }
  }

  /* ---------- Sessions ---------- */

  /** What an operation of the writer uploads. */
  function DataOf(started: bool, op: Op): seq<byte> {
    match op
    case Write(payload, _) => WriteData(started, payload)
    case Close(_) => CloseData(started)
    case Other(_) => []
  }

  /** Closing neither moves the writer on nor keeps it from being used again. */
  function Step(key: Key, s: Session, op: Op): Session {
    match op
    case Write(payload, net) =>
      var data := WriteData(s.started, payload);
      Session(Upload(s.db, key, s.offset, data, net).0, true, s.offset + |data|)
    case Close(net) => s.(db := Upload(s.db, key, s.offset, CloseData(s.started), net).0)
    case Other(c) => if c.key == key then s else s.(db := Put(s.db, c).0)
  }

  function Run(key: Key, db: Db, ops: seq<Op>): Session {
    if ops == [] then Session(db, false, 0)
    else Step(key, Run(key, db, ops[..|ops| - 1]), ops[|ops| - 1])
  }

  /** Nothing is known about the phase yet. */
  predicate Blank(key: Key, db: Db) { Rows(db.chunks, key) == [] && key !in db.logs }

  /* ---------- What becomes of the operations ---------- */

  predicate EndsInEtx(payload: seq<byte>) { |payload| > 0 && payload[|payload| - 1] == ETX }

  predicate HasWrite(ops: seq<Op>) { ops != [] && (ops[|ops| - 1].Write? || HasWrite(ops[..|ops| - 1])) }

  predicate Arrives(op: Op) { !op.Other? && op.net.deliveries > 0 }

  /** The upload looks like the end of the log. */
  predicate EndsLog(op: Op) { op.Close? || (op.Write? && EndsInEtx(op.payload)) }

  /** An upload that ends the log has arrived. */
  predicate Ended(ops: seq<Op>) {
    && ops != []
    && var last := ops[|ops| - 1];
       (Arrives(last) && EndsLog(last)) || Ended(ops[..|ops| - 1])
  }

  /** All that the writer sends. */
  function Sent(ops: seq<Op>): seq<byte> {
    if ops == [] then []
    else
      var init := ops[..|ops| - 1];
      Sent(init) + DataOf(HasWrite(init), ops[|ops| - 1])
  }

  function Repeat(data: seq<byte>, n: nat): seq<byte> { if n == 0 then [] else Repeat(data, n - 1) + data }

  /** What is stored of an operation's upload: a copy for each delivery, but of an end only
      one, since later ends are refused. */
  function Arriving(started: bool, op: Op): seq<byte> {
    if !Arrives(op) then []
    else if EndsLog(op) then DataOf(started, op)
    else Repeat(DataOf(started, op), op.net.deliveries)
  }

  /** What arrives up to and including the first end. */
  function Logged(ops: seq<Op>): seq<byte> {
    if ops == [] then []
    else
      var init, last := ops[..|ops| - 1], ops[|ops| - 1];
      if !Ended(init) then Logged(init) + Arriving(HasWrite(init), last) else Logged(init)
  }

  /** What arrives after that. */
  function Late(ops: seq<Op>): seq<byte> {
    if ops == [] then []
    else
      var init, last := ops[..|ops| - 1], ops[|ops| - 1];
      if Ended(init) && !EndsLog(last) then Late(init) + Arriving(HasWrite(init), last) else Late(init)
  }

  /** The operation has something to upload: an empty write has not, unless it is the first. */
  predicate Matters(before: seq<Op>, op: Op) {
    op.Close? || (op.Write? && (op.payload != [] || !HasWrite(before)))
  }

  /** It arrives exactly once, or ends the log, before the log has ended. */
  predicate Counts(before: seq<Op>, op: Op) {
    Arrives(op) && !Ended(before) && (EndsLog(op) || op.net.deliveries == 1)
  }

  /** So does every operation with something to upload. */
  predicate AllCounted(ops: seq<Op>) {
    ops == []
    || (var init, last := ops[..|ops| - 1], ops[|ops| - 1];
        AllCounted(init) && (Matters(init, last) ==> Counts(init, last)))
  }

  /** No operation with something to upload fails to arrive or has its end refused. */
  predicate NothingLost(ops: seq<Op>) {
    ops == []
    || (var init, last := ops[..|ops| - 1], ops[|ops| - 1];
        NothingLost(init) && (Matters(init, last) ==> Arrives(last) && !(Ended(init) && EndsLog(last))))
  }

  /** None is stored more than once. */
  predicate NothingRepeated(ops: seq<Op>) {
    ops == []
    || (var init, last := ops[..|ops| - 1], ops[|ops| - 1];
        NothingRepeated(init) && (Matters(init, last) ==> EndsLog(last) || last.net.deliveries <= 1))
  }

  /** A write with data that do not end the log arrived after an upload that did. */
  predicate WrittenAfterEnd(ops: seq<Op>) {
    && ops != []
    && var init, last := ops[..|ops| - 1], ops[|ops| - 1];
       WrittenAfterEnd(init) || (Ended(init) && Arrives(last) && Matters(init, last) && !EndsLog(last))
  }

  lemma MattersIffData(before: seq<Op>, op: Op)
    ensures Matters(before, op) <==> DataOf(HasWrite(before), op) != []
    ensures Matters(before, op) ==> (EndsLog(op) <==> EndsInEtx(DataOf(HasWrite(before), op)))
  {
  }

  lemma {:induction false} RepeatLength(data: seq<byte>, n: nat)
    ensures n == 1 || data == [] ==> Repeat(data, n) == data
    ensures n == 0 ==> Repeat(data, n) == []
    ensures n > 0 ==> |Repeat(data, n)| >= |data|
    ensures n > 1 && data != [] ==> |Repeat(data, n)| > |data|
    ensures n > 0 && data != [] ==> EndsInEtx(Repeat(data, n)) == EndsInEtx(data)
  {
    if n > 0 {
      RepeatLength(data, n - 1);
      if n == 1 { assert Repeat(data, 0) + data == data; }
    }
  }

  /** What is stored of an operation against what it sends. */
  lemma ArrivingLength(before: seq<Op>, op: Op)
    ensures var data, stored := DataOf(HasWrite(before), op), Arriving(HasWrite(before), op);
            && (stored != [] <==> Arrives(op) && Matters(before, op))
            && (stored != [] ==> EndsInEtx(stored) == EndsLog(op))
            && (Arrives(op) && (EndsLog(op) || op.net.deliveries == 1) ==> stored == data)
            && (Arrives(op) ==> |stored| >= |data|)
            && (EndsLog(op) || op.Other? || op.net.deliveries <= 1 ==> |stored| <= |data|)
            && (Matters(before, op) && |stored| == |data| ==> Arrives(op) && (EndsLog(op) || op.net.deliveries == 1))
            && (!Matters(before, op) ==> stored == data == [])
  {
    MattersIffData(before, op);
    if Arrives(op) { RepeatLength(DataOf(HasWrite(before), op), op.net.deliveries); }
  }

  lemma AppendEnds(a: seq<byte>, b: seq<byte>)
    ensures b != [] ==> EndsInEtx(a + b) == EndsInEtx(b)
    ensures b == [] ==> a + b == a
  {
  }

  lemma {:induction false} LateIff(ops: seq<Op>)
    ensures Late(ops) != [] <==> WrittenAfterEnd(ops)
    ensures Late(ops) != [] ==> Ended(ops) && !EndsInEtx(Late(ops))
  {
    if ops != [] {
      var init, last := ops[..|ops| - 1], ops[|ops| - 1];
      LateIff(init);
      ArrivingLength(init, last);
      AppendEnds(Late(init), Arriving(HasWrite(init), last));
    }
  }

  lemma {:induction false} EndIsLogged(ops: seq<Op>)
    ensures Ended(ops) ==> EndsInEtx(Logged(ops))
  {
    if ops != [] {
      var init, last := ops[..|ops| - 1], ops[|ops| - 1];
      EndIsLogged(init);
      ArrivingLength(init, last);
      AppendEnds(Logged(init), Arriving(HasWrite(init), last));
    }
  }

  /** If every operation counts, what is logged is what was sent. */
  lemma {:induction false} CountedIsSent(ops: seq<Op>)
    requires AllCounted(ops)
    ensures Late(ops) == [] && Logged(ops) == Sent(ops)
  {
    if ops != [] {
      CountedIsSent(ops[..|ops| - 1]);
      ArrivingLength(ops[..|ops| - 1], ops[|ops| - 1]);
    }
  }

  /** And an operation that does not count shows. */
  lemma UncountedShows(ops: seq<Op>)
    requires ops != [] && AllCounted(ops[..|ops| - 1]) && Late(ops) == [] && Logged(ops) == Sent(ops)
    ensures AllCounted(ops)
  {
    CountedIsSent(ops[..|ops| - 1]);
    MattersIffData(ops[..|ops| - 1], ops[|ops| - 1]);
    ArrivingLength(ops[..|ops| - 1], ops[|ops| - 1]);
  }

  /** If operations are not both lost and repeated, the number of bytes tells. */
  lemma {:induction false} CountedByLength(ops: seq<Op>)
    ensures NothingRepeated(ops) ==> |Logged(ops)| + |Late(ops)| <= |Sent(ops)|
    ensures NothingLost(ops) ==> |Logged(ops)| + |Late(ops)| >= |Sent(ops)|
    ensures (NothingLost(ops) || NothingRepeated(ops)) && Late(ops) == [] && |Logged(ops)| == |Sent(ops)| ==> AllCounted(ops)
  {
    if ops != [] {
      CountedByLength(ops[..|ops| - 1]);
      MattersIffData(ops[..|ops| - 1], ops[|ops| - 1]);
      ArrivingLength(ops[..|ops| - 1], ops[|ops| - 1]);
    }
  }

  lemma {:induction false} CountedSoFar(ops: seq<Op>, j: nat)
    requires AllCounted(ops) && j <= |ops|
    ensures AllCounted(ops[..j])
    decreases |ops|
  {
    if j == |ops| {
      assert ops[..j] == ops;
    } else {
      CountedSoFar(ops[..|ops| - 1], j);
      assert ops[..|ops| - 1][..j] == ops[..j];
    }
  }

  /* ---------- What every operation keeps ---------- */

  ghost predicate RowsOk(rows: seq<Chunk>, offset: nat) {
    && InOrder(rows)
    && forall i :: 0 <= i < |rows| ==> rows[i].data != [] && rows[i].NextOffset() <= offset
  }

  /** The logs table has what was logged up to the end, the chunk rows what came since. */
  ghost predicate SessionInv(key: Key, s: Session, ops: seq<Op>) {
    && s.started == HasWrite(ops)
    && RowsOk(Rows(s.db.chunks, key), s.offset)
    && (key in s.db.logs <==> Ended(ops))
    && (Ended(ops) ==> s.db.logs[key] == Logged(ops))
    && Aggregate(s.db, key) == (if Ended(ops) then Late(ops) else Logged(ops))
    && (Rows(s.db.chunks, key) == [] <==> Aggregate(s.db, key) == [])
    && (!Ended(ops) ==> Late(ops) == [])
  }

  /** A chunk goes after all the others: they end where it begins, or are copies of it. */
  ghost predicate Takes(rows: seq<Chunk>, c: Chunk) {
    && c.data != [] && InOrder(rows)
    && forall i :: 0 <= i < |rows| ==> rows[i].data != [] && (rows[i] == c || rows[i].NextOffset() <= c.offset)
  }

  lemma TakenInOrder(rows: seq<Chunk>, c: Chunk)
    requires Takes(rows, c)
    ensures Takes(rows + [c], c) && RowsOk(rows + [c], c.NextOffset())
  {
    var rows' := rows + [c];
    forall i, j | 0 <= i < j < |rows'| ensures rows'[i].offset < rows'[j].offset || rows'[i] == rows'[j] {
      assert rows'[i] == rows[i];
    }
  }

  lemma InsertKeeps(db: Db, c: Chunk)
    requires Takes(Rows(db.chunks, c.key), c)
    ensures Rows(Insert(db, c).chunks, c.key) == Rows(db.chunks, c.key) + [c]
    ensures Aggregate(Insert(db, c), c.key) == Aggregate(db, c.key) + c.data
  {
    var rows := Rows(db.chunks, c.key);
    RowsOfAppend(db.chunks, c, c.key);
    TakenInOrder(rows, c);
    InOrderStays(rows);
    InOrderStays(rows + [c]);
    JoinedOfAppend(rows, c);
  }

  /** What n deliveries of a chunk make of the tables, if it does not end the log. */
  ghost predicate Added(db: Db, c: Chunk, n: nat, db': Db) {
    && db'.logs == db.logs
    && Aggregate(db', c.key) == Aggregate(db, c.key) + Repeat(c.data, n)
    && Takes(Rows(db'.chunks, c.key), c)
    && (n > 0 ==> Rows(db'.chunks, c.key) != [] && RowsOk(Rows(db'.chunks, c.key), c.NextOffset()))
  }

  lemma {:induction false} PutTimesAdds(db: Db, c: Chunk, n: nat)
    requires Takes(Rows(db.chunks, c.key), c) && !c.IsEnd()
    ensures Added(db, c, n, PutTimes(db, c, n).0)
  {
    if n > 0 {
      PutTimesAdds(db, c, n - 1);
      AddOneMore(db, c, n, PutTimes(db, c, n - 1).0);
    } else {
      assert Aggregate(db, c.key) + [] == Aggregate(db, c.key);
    }
  }

  lemma AddOneMore(db: Db, c: Chunk, n: nat, d: Db)
    requires n > 0 && Added(db, c, n - 1, d) && !c.IsEnd()
    ensures Added(db, c, n, Put(d, c).0)
  {
    InsertKeeps(d, c);
    TakenInOrder(Rows(d.chunks, c.key), c);
    Associate(Aggregate(db, c.key), Repeat(c.data, n - 1), c.data);
  }

  /** Deliveries of one that does: the first moves all there is into the logs table, unless
      there is a log already, and the others are refused. */
  lemma {:induction false} PutTimesMoves(db: Db, c: Chunk, n: nat)
    requires Takes(Rows(db.chunks, c.key), c) && c.IsEnd() && n > 0
    ensures var (db', ok) := PutTimes(db, c, n);
            && (ok <==> n == 1 && c.key !in db.logs)
            && (c.key in db.logs ==> db' == db)
            && (c.key !in db.logs ==>
                  && c.key in db'.logs && db'.logs[c.key] == Aggregate(db, c.key) + c.data
                  && Rows(db'.chunks, c.key) == [] && Aggregate(db', c.key) == [])
  {
    if n > 1 {
      PutTimesMoves(db, c, n - 1);
    } else {
      assert PutTimes(db, c, 0).0 == db;
      InsertKeeps(db, c);
      RowsWithout(Insert(db, c).chunks, c.key, c.key);
      assert Joined(ByOffset([])) == [];
    }
  }

  lemma OtherKeeps(key: Key, s: Session, ops: seq<Op>, op: Op)
    requires SessionInv(key, s, ops) && op.Other?
    ensures SessionInv(key, Step(key, s, op), ops)
  {
    if op.chunk.key != key { PutLeavesOthers(s.db, op.chunk, key); }
  }

  /** What an upload with data does to the tables. */
  lemma StepPuts(key: Key, s: Session, op: Op)
    requires !op.Other? && DataOf(s.started, op) != []
    ensures Step(key, s, op).db == PutTimes(s.db, Chunk(key, s.offset, DataOf(s.started, op)), op.net.deliveries).0
    ensures Step(key, s, op).started == (s.started || op.Write?)
    ensures Step(key, s, op).offset == s.offset + if op.Write? then |DataOf(s.started, op)| else 0
  {
  }

  lemma WriteStores(key: Key, s: Session, op: Op)
    requires RowsOk(Rows(s.db.chunks, key), s.offset) && op.Write? && Arrives(op)
    requires var data := DataOf(s.started, op); data != [] && !EndsInEtx(data)
    ensures var s' := Step(key, s, op);
            && s'.started && RowsOk(Rows(s'.db.chunks, key), s'.offset)
            && s'.db.logs == s.db.logs
            && Aggregate(s'.db, key) == Aggregate(s.db, key) + Repeat(DataOf(s.started, op), op.net.deliveries)
            && Rows(s'.db.chunks, key) != []
  {
    StepPuts(key, s, op);
    PutTimesAdds(s.db, Chunk(key, s.offset, DataOf(s.started, op)), op.net.deliveries);
  }

  lemma WriteKeeps(key: Key, s: Session, init: seq<Op>, ops: seq<Op>)
    requires ops != [] && init == ops[..|ops| - 1] && SessionInv(key, s, init)
    requires var op := ops[|ops| - 1]; Arrives(op) && Matters(init, op) && !EndsLog(op)
    ensures SessionInv(key, Step(key, s, ops[|ops| - 1]), ops)
  {
    var op := ops[|ops| - 1];
    MattersIffData(init, op);
    WriteStores(key, s, op);
    WriteHistory(init, ops);
    ArrivingLength(init, op);
    assert Aggregate(Step(key, s, op).db, key) == Aggregate(s.db, key) + Arriving(HasWrite(init), op);
  }

  lemma WriteHistory(init: seq<Op>, ops: seq<Op>)
    requires ops != [] && init == ops[..|ops| - 1]
    requires var op := ops[|ops| - 1]; op.Write? && Arrives(op) && !EndsLog(op)
    ensures HasWrite(ops) && Ended(ops) == Ended(init)
    ensures Logged(ops) == if Ended(init) then Logged(init) else Logged(init) + Arriving(HasWrite(init), ops[|ops| - 1])
    ensures Late(ops) == if Ended(init) then Late(init) + Arriving(HasWrite(init), ops[|ops| - 1]) else Late(init)
  {
  }

  lemma EndKeeps(key: Key, s: Session, init: seq<Op>, ops: seq<Op>)
    requires ops != [] && init == ops[..|ops| - 1] && SessionInv(key, s, init)
    requires var op := ops[|ops| - 1]; Arrives(op) && Matters(init, op) && EndsLog(op)
    ensures SessionInv(key, Step(key, s, ops[|ops| - 1]), ops)
  {
    var op := ops[|ops| - 1];
    MattersIffData(init, op);
    StepPuts(key, s, op);
    PutTimesMoves(s.db, Chunk(key, s.offset, DataOf(s.started, op)), op.net.deliveries);
  }

  /** An operation that has nothing to upload, or does not get it through. */
  lemma NoArrivalKeeps(key: Key, s: Session, init: seq<Op>, ops: seq<Op>)
    requires ops != [] && init == ops[..|ops| - 1] && SessionInv(key, s, init)
    requires var op := ops[|ops| - 1]; !op.Other? && !(Arrives(op) && Matters(init, op))
    ensures SessionInv(key, Step(key, s, ops[|ops| - 1]), ops)
  {
    MattersIffData(init, ops[|ops| - 1]);
    ArrivingLength(init, ops[|ops| - 1]);
    if Matters(init, ops[|ops| - 1]) { StepPuts(key, s, ops[|ops| - 1]); }
  }

  lemma {:induction false} RunKeeps(key: Key, db: Db, ops: seq<Op>)
    requires Blank(key, db)
    ensures SessionInv(key, Run(key, db, ops), ops)
  {
    if ops != [] {
      var init, last := ops[..|ops| - 1], ops[|ops| - 1];
      RunKeeps(key, db, init);
      var s := Run(key, db, init);
      if last.Other? {
        OtherKeeps(key, s, init, last);
      } else if Arrives(last) && Matters(init, last) {
        if EndsLog(last) { EndKeeps(key, s, init, ops); } else { WriteKeeps(key, s, init, ops); }
      } else {
        NoArrivalKeeps(key, s, init, ops);
      }
    }
  }

  /* ---------- Main results ---------- */

  /** What getChunk's query yields for one plain byte string. */
  function WindowsOf(log: seq<byte>, offset: nat, limit: nat): set<seq<byte>> {
    if log == [] then {} else {Window(log, offset, if limit == 0 then MAX_INT4 else limit)}
  }

  /** At every point of every session, for every offset and limit, getChunk's query yields
      that window of what was logged up to the end and, if anything came after it, that
      window of the rest. */
  lemma ReadsAreWindows(key: Key, db: Db, ops: seq<Op>, offset: nat, limit: nat)
    requires Blank(key, db)
    ensures ReadRows(Run(key, db, ops).db, key, offset, limit) ==
            WindowsOf(Logged(ops), offset, limit) + WindowsOf(Late(ops), offset, limit)
  {
    RunKeeps(key, db, ops);
    LateIff(ops);
    EndIsLogged(ops);
  }

  /** A row in logs and rows in chunks coexist exactly when a write with data that do not
      end the log arrived after an upload that did. */
  lemma SplitIffWrittenAfterEnd(key: Key, db: Db, ops: seq<Op>)
    requires Blank(key, db)
    ensures var s := Run(key, db, ops);
            key in s.db.logs && Rows(s.db.chunks, key) != [] <==> WrittenAfterEnd(ops)
  {
    RunKeeps(key, db, ops);
    LateIff(ops);
  }

  /** Every read is the window of all that was sent. */
  ghost predicate ReadsRight(key: Key, db: Db, ops: seq<Op>) {
    forall offset: nat, limit: nat :: ReadRows(Run(key, db, ops).db, key, offset, limit) == WindowsOf(Sent(ops), offset, limit)
  }

  lemma ReadsRightIffLogged(key: Key, db: Db, ops: seq<Op>)
    requires Blank(key, db)
    ensures ReadsRight(key, db, ops) <==> Late(ops) == [] && Logged(ops) == Sent(ops)
  {
    forall offset: nat, limit: nat
      ensures ReadRows(Run(key, db, ops).db, key, offset, limit) ==
              WindowsOf(Logged(ops), offset, limit) + WindowsOf(Late(ops), offset, limit)
    {
      ReadsAreWindows(key, db, ops, offset, limit);
    }
    if ReadsRight(key, db, ops) {
      var n := |Sent(ops)| + |Logged(ops)| + |Late(ops)| + 1;
      assert ReadRows(Run(key, db, ops).db, key, 0, n) == WindowsOf(Sent(ops), 0, n);
      WholeWindow(Logged(ops), n);
      WholeWindow(Late(ops), n);
      WholeWindow(Sent(ops), n);
      LateIff(ops);
      EndIsLogged(ops);
      SameParts(Logged(ops), Late(ops), Sent(ops));
    }
  }

  /** At every point of a session all reads are windows of all that was sent by then, exactly
      when every operation with something to upload gets it stored exactly once, before the
      log has ended. (An upload that ends the log may arrive more than once.) */
  lemma LogIsSentIff(key: Key, db: Db, ops: seq<Op>)
    requires Blank(key, db)
    ensures (forall j :: 0 <= j <= |ops| ==> ReadsRight(key, db, ops[..j])) <==> AllCounted(ops)
  {
    if AllCounted(ops) {
      forall j | 0 <= j <= |ops| ensures ReadsRight(key, db, ops[..j]) {
        CountedSoFar(ops, j);
        CountedIsSent(ops[..j]);
        ReadsRightIffLogged(key, db, ops[..j]);
      }
    }
    if forall j :: 0 <= j <= |ops| ==> ReadsRight(key, db, ops[..j]) {
      RightSoFarCounts(key, db, ops, |ops|);
      assert ops[..|ops|] == ops;
    }
  }

  lemma {:induction false} RightSoFarCounts(key: Key, db: Db, ops: seq<Op>, j: nat)
    requires Blank(key, db) && j <= |ops| && forall i :: 0 <= i <= |ops| ==> ReadsRight(key, db, ops[..i])
    ensures AllCounted(ops[..j])
    decreases j
  {
    if j > 0 {
      RightSoFarCounts(key, db, ops, j - 1);
      assert ops[..j][..j - 1] == ops[..j - 1];
      ReadsRightIffLogged(key, db, ops[..j]);
      UncountedShows(ops[..j]);
    }
  }

  /** The reads at the end alone tell as much, unless some uploads were lost and others
      repeated, which can make up for each other. */
  lemma LogIsSentNowIff(key: Key, db: Db, ops: seq<Op>)
    requires Blank(key, db) && (NothingLost(ops) || NothingRepeated(ops))
    ensures ReadsRight(key, db, ops) <==> AllCounted(ops)
  {
    ReadsRightIffLogged(key, db, ops);
    CountedByLength(ops);
    if AllCounted(ops) { CountedIsSent(ops); }
  }

  lemma WholeWindow(log: seq<byte>, n: nat)
    requires |log| <= if n == 0 then MAX_INT4 else n
    ensures WindowsOf(log, 0, n) == if log == [] then {} else {log}
  {
    assert log[0..] == log && log[..|log|] == log;
  }

  lemma SameParts(logged: seq<byte>, late: seq<byte>, sent: seq<byte>)
    requires (if logged == [] then {} else {logged}) + (if late == [] then {} else {late}) == if sent == [] then {} else {sent}
    requires late != [] ==> EndsInEtx(logged) && !EndsInEtx(late)
    ensures logged == sent && late == []
  {
    if logged != [] { assert logged in {logged} + if late == [] then {} else {late}; }
  }

  predicate HasClose(ops: seq<Op>) { ops != [] && (ops[|ops| - 1].Close? || HasClose(ops[..|ops| - 1])) }

  /** The writer is closed at most once, and not used after that. */
  predicate Proper(ops: seq<Op>) {
    ops == [] || (Proper(ops[..|ops| - 1]) && (HasClose(ops[..|ops| - 1]) ==> ops[|ops| - 1].Other?))
  }

  /** Everything written. */
  function Payloads(ops: seq<Op>): seq<byte> {
    if ops == [] then []
    else
      var init, last := ops[..|ops| - 1], ops[|ops| - 1];
      if last.Write? then Payloads(init) + last.payload else Payloads(init)
  }

  /** The start marker, the payloads, and the end marker once closed. */
  function FramedLog(ops: seq<Op>): seq<byte> {
    if !HasWrite(ops) && !HasClose(ops) then []
    else if HasClose(ops) then [STX] + Payloads(ops) + [ETX]
    else [STX] + Payloads(ops)
  }

  /** A writer that is properly used sends the framed log. */
  lemma {:induction false} SentIsFramed(ops: seq<Op>)
    requires Proper(ops)
    ensures Sent(ops) == FramedLog(ops)
    ensures !HasWrite(ops) ==> Payloads(ops) == []
  {
    if ops != [] {
      var init, last := ops[..|ops| - 1], ops[|ops| - 1];
      SentIsFramed(init);
      if last.Write? {
        FrameWrite(Payloads(init), last.payload);
      } else if last.Close? {
        assert [] + [STX, ETX] == [STX] + [] + [ETX];
      }
    }
  }

  lemma FrameWrite(before: seq<byte>, payload: seq<byte>)
    ensures ([STX] + before) + payload == [STX] + (before + payload)
    ensures [] + ([STX] + payload) == [STX] + ([] + payload)
  {
  }

  ghost predicate ReadsFramed(key: Key, db: Db, ops: seq<Op>) {
    forall offset: nat, limit: nat :: ReadRows(Run(key, db, ops).db, key, offset, limit) == WindowsOf(FramedLog(ops), offset, limit)
  }

  lemma {:induction false} ProperSoFar(ops: seq<Op>, j: nat)
    requires Proper(ops) && j <= |ops|
    ensures Proper(ops[..j])
    decreases |ops|
  {
    if j == |ops| {
      assert ops[..j] == ops;
    } else {
      ProperSoFar(ops[..|ops| - 1], j);
      assert ops[..|ops| - 1][..j] == ops[..j];
    }
  }

  /** At every point the store looks like one plain byte string, namely start marker,
      everything written by then, and the end marker once closed, exactly when every operation
      with something to upload gets it stored exactly once, before the log has ended. */
  lemma LogIsWhatWasWritten(key: Key, db: Db, ops: seq<Op>)
    requires Blank(key, db) && Proper(ops)
    ensures (forall j :: 0 <= j <= |ops| ==> ReadsFramed(key, db, ops[..j])) <==> AllCounted(ops)
  {
    forall j | 0 <= j <= |ops| ensures ReadsFramed(key, db, ops[..j]) <==> ReadsRight(key, db, ops[..j]) {
      ProperSoFar(ops, j);
      SentIsFramed(ops[..j]);
    }
    LogIsSentIff(key, db, ops);
  }

  /** Cutting the whole log and querying for a part of it return the same data, except
      that an unlimited query stops after the largest int4 bytes. */
  lemma CutAgreesWithQuery(log: seq<byte>, key: Key, offset: nat, limit: nat)
    ensures Chunk(key, 0, log).Cut(offset, limit).data == Window(log, offset, if limit == 0 then MAX_INT4 else limit)
            <==> limit > 0 || |log| <= offset + 2147483647
  {
    CutIsWindow(Chunk(key, 0, log), offset, limit);
  }

  /** Closing succeeds exactly when its upload arrives once and is answered, and no upload
      that arrived before has ended the log already. Arriving again, it is refused. */
  lemma CloseSucceedsIff(key: Key, db: Db, ops: seq<Op>, net: Net)
    requires Blank(key, db)
    ensures var s := Run(key, db, ops);
            Upload(s.db, key, s.offset, CloseData(s.started), net).1 <==> net == Net(1, true) && !Ended(ops)
  {
    RunKeeps(key, db, ops);
    CloseUploads(key, Run(key, db, ops), net);
  }

  lemma CloseUploads(key: Key, s: Session, net: Net)
    requires RowsOk(Rows(s.db.chunks, key), s.offset)
    ensures Upload(s.db, key, s.offset, CloseData(s.started), net).1 <==> net == Net(1, true) && key !in s.db.logs
  {
    if net.deliveries > 0 { PutTimesMoves(s.db, Chunk(key, s.offset, CloseData(s.started)), net.deliveries); }
  }

  /* ---------- Examples ---------- */

  const ONCE := Net(1, true)
  const TWICE := Net(2, true)
  const LOST := Net(0, false)

  lemma OneMore(ops: seq<Op>, op: Op)
    ensures HasWrite(ops + [op]) == (HasWrite(ops) || op.Write?)
    ensures Ended(ops + [op]) == (Ended(ops) || (Arrives(op) && EndsLog(op)))
    ensures Sent(ops + [op]) == Sent(ops) + DataOf(HasWrite(ops), op)
    ensures Logged(ops + [op]) == Logged(ops) + if !Ended(ops) then Arriving(HasWrite(ops), op) else []
    ensures Late(ops + [op]) == Late(ops) + if Ended(ops) && !EndsLog(op) then Arriving(HasWrite(ops), op) else []
  {
    assert (ops + [op])[..|ops|] == ops;
  }

  lemma ArrivingOf(started: bool, op: Op)
    requires !op.Other?
    ensures op.net == LOST ==> Arriving(started, op) == []
    ensures op.net == ONCE ==> Arriving(started, op) == DataOf(started, op)
    ensures op.net == TWICE && !EndsLog(op) ==> Arriving(started, op) == DataOf(started, op) + DataOf(started, op)
  {
    var data := DataOf(started, op);
    assert Repeat(data, 0) + data == data && Repeat(data, 1) == Repeat(data, 0) + data && Repeat(data, 2) == Repeat(data, 1) + data;
  }

  lemma TwoMore(ops: seq<Op>, b: Op, c: Op)
    requires HasWrite(ops) && !Ended(ops) && Late(ops) == [] && !b.Other?
    ensures Sent(ops + [b] + [c]) == Sent(ops) + DataOf(true, b) + DataOf(true, c)
    ensures var ended := Arrives(b) && EndsLog(b);
            && Logged(ops + [b] + [c]) == Logged(ops) + Arriving(true, b) + (if ended then [] else Arriving(true, c))
            && Late(ops + [b] + [c]) == if ended && !EndsLog(c) then Arriving(true, c) else []
  {
    OneMore(ops, b);
    OneMore(ops + [b], c);
  }

  /** A write that does not end the log, and two more operations of the writer. */
  lemma ThreeOps(a: Op, b: Op, c: Op)
    requires a.Write? && !b.Other? && !EndsLog(a)
    ensures Sent([a, b, c]) == DataOf(false, a) + DataOf(true, b) + DataOf(true, c)
    ensures var ended := Arrives(b) && EndsLog(b);
            && Logged([a, b, c]) == Arriving(false, a) + Arriving(true, b) + (if ended then [] else Arriving(true, c))
            && Late([a, b, c]) == if ended && !EndsLog(c) then Arriving(true, c) else []
  {
    var ops := [a];
    FirstWrite(a, ops);
    TwoMore(ops, b, c);
    assert ops + [b] + [c] == [a, b, c];
  }

  lemma FirstWrite(a: Op, ops: seq<Op>)
    requires a.Write? && !EndsLog(a) && ops == [a]
    ensures HasWrite(ops) && !Ended(ops) && Late(ops) == [] && Logged(ops) == Arriving(false, a) && Sent(ops) == DataOf(false, a)
  {
    OneMore([], a);
    assert [] + [a] == ops && [] + Arriving(false, a) == Arriving(false, a) && [] + DataOf(false, a) == DataOf(false, a);
  }

  /** What a session leaves to be read. */
  lemma Reading(key: Key, db: Db, ops: seq<Op>, logged: seq<byte>, late: seq<byte>)
    requires Blank(key, db) && logged == Logged(ops) && late == Late(ops)
    requires logged != [] && |logged| <= MAX_INT4 && |late| <= MAX_INT4
    ensures ReadRows(Run(key, db, ops).db, key, 0, 0) == {logged} + if late == [] then {} else {late}
  {
    WholeWindow(logged, 0);
    WholeWindow(late, 0);
    ReadsAreWindows(key, db, ops, 0, 0);
  }

  /** A write that fails leaves a hole in the log, since the next one is taken all the same. */
  lemma LostWriteLeavesAHole(key: Key, db: Db)
    requires Blank(key, db)
    ensures ReadRows(Run(key, db, [Write([65], ONCE), Write([66], LOST), Write([67], ONCE)]).db, key, 0, 0) == {[STX, 65, 67]}
  {
    var a, b, c := Write([65], ONCE), Write([66], LOST), Write([67], ONCE);
    ThreeOps(a, b, c);
    ArrivingOf(false, a);
    ArrivingOf(true, b);
    ArrivingOf(true, c);
    Reading(key, db, [a, b, c], [STX, 65, 67], []);
  }

  /** One that arrives twice is there twice. */
  lemma RepeatedWriteIsStoredTwice(key: Key, db: Db)
    requires Blank(key, db)
    ensures ReadRows(Run(key, db, [Write([65], ONCE), Write([66], TWICE), Close(ONCE)]).db, key, 0, 0) == {[STX, 65, 66, 66, ETX]}
  {
    var a, b, c := Write([65], ONCE), Write([66], TWICE), Close(ONCE);
    ThreeOps(a, b, c);
    ArrivingOf(false, a);
    ArrivingOf(true, b);
    ArrivingOf(true, c);
    Reading(key, db, [a, b, c], [STX, 65, 66, 66, ETX], []);
  }

  /** And one can make up for the other: here all that was sent is there to be read, though a
      write was lost. */
  lemma RepeatMayHideALoss(key: Key, db: Db)
    requires Blank(key, db)
    ensures var ops := [Write([65], ONCE), Write([66], LOST), Write([66], TWICE)];
            ReadsRight(key, db, ops) && !AllCounted(ops)
  {
    var a, b, c := Write([65], ONCE), Write([66], LOST), Write([66], TWICE);
    ThreeOps(a, b, c);
    ArrivingOf(false, a);
    ArrivingOf(true, b);
    ArrivingOf(true, c);
    assert Logged([a, b, c]) == [STX, 65, 66, 66] == Sent([a, b, c]);
    ReadsRightIffLogged(key, db, [a, b, c]);
    assert [a, b, c][..2] == [a, b];
  }

  /** Whether a payload or the close has ended it, writing on leaves two rows for one phase,
      so that a read may return either part of the log. */
  lemma WritingOnSplitsTheLog(key: Key, db: Db, end: Op)
    requires Blank(key, db) && Arrives(end) && EndsLog(end) && |DataOf(true, end)| < MAX_INT4 - 2
    ensures ReadRows(Run(key, db, [Write([64], ONCE), end, Write([66], ONCE)]).db, key, 0, 0) == {[STX, 64] + DataOf(true, end), [66]}
  {
    var a, c := Write([64], ONCE), Write([66], ONCE);
    SplitParts(a, end, c);
    Reading(key, db, [a, end, c], [STX, 64] + DataOf(true, end), [66]);
  }

  lemma SplitParts(a: Op, end: Op, c: Op)
    requires a == Write([64], ONCE) && c == Write([66], ONCE) && Arrives(end) && EndsLog(end)
    ensures Logged([a, end, c]) == [STX, 64] + DataOf(true, end) && Late([a, end, c]) == [66]
  {
    FirstAndLast(a, c);
    ThreeOps(a, end, c);
    AppendEnds([STX, 64] + DataOf(true, end), []);
  }

  lemma FirstAndLast(a: Op, c: Op)
    requires a == Write([64], ONCE) && c == Write([66], ONCE)
    ensures Arriving(false, a) == [STX, 64] && Arriving(true, c) == [66]
  {
    ArrivingOf(false, a);
    ArrivingOf(true, c);
    assert DataOf(false, a) == [STX, 64] && DataOf(true, c) == [66];
  }
}
