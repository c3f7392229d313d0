/**
The database's log tables (putChunk and getChunk in internal/run/db.go): rows in `chunks`
while a phase is being logged, one row in `logs` once it has ended.
 */
module LogStore {
  import opened Prelude
  import opened Chunks

  datatype Db = Db(chunks: seq<Chunk>, logs: map<Key, seq<byte>>)

  /** The largest int4, which getChunk uses for "no limit". */
  const MAX_INT4 := 2_147_483_647

  function Rows(chunks: seq<Chunk>, key: Key): seq<Chunk> {
    if chunks == [] then []
    else
      var rest := Rows(chunks[..|chunks| - 1], key);
      var last := chunks[|chunks| - 1];
      if last.key == key then rest + [last] else rest
  }

  function Without(chunks: seq<Chunk>, key: Key): seq<Chunk> {
    if chunks == [] then []
    else
      var rest := Without(chunks[..|chunks| - 1], key);
      var last := chunks[|chunks| - 1];
      if last.key == key then rest else rest + [last]
  }

  /** ORDER BY _offset. */
  function Place(sorted: seq<Chunk>, c: Chunk): seq<Chunk> {
    if sorted == [] || sorted[|sorted| - 1].offset <= c.offset then sorted + [c]
    else Place(sorted[..|sorted| - 1], c) + [sorted[|sorted| - 1]]
  }

  function ByOffset(rows: seq<Chunk>): seq<Chunk> {
    if rows == [] then [] else Place(ByOffset(rows[..|rows| - 1]), rows[|rows| - 1])
  }

  /** string_agg(chunk, ''). */
  function Joined(rows: seq<Chunk>): seq<byte> {
    if rows == [] then [] else Joined(rows[..|rows| - 1]) + rows[|rows| - 1].data
  }

  function Aggregate(db: Db, key: Key): seq<byte> { Joined(ByOffset(Rows(db.chunks, key))) }

  function Insert(db: Db, c: Chunk): Db { db.(chunks := db.chunks + [c]) }

  /** Move a phase's chunks into a single row of logs. */
  function Coalesce(db: Db, key: Key): Db {
    Db(Without(db.chunks, key), db.logs[key := Aggregate(db, key)])
  }

  /** putChunk: a second complete log for a phase violates the primary key, and the
      transaction is rolled back. */
  function Put(db: Db, c: Chunk): (Db, bool) {
    if !c.IsEnd() then (Insert(db, c), true)
    else if c.key in db.logs then (db, false)
    else (Coalesce(Insert(db, c), c.key), true)
  }

  /** The rows of getChunk's UNION. */
  function ReadRows(db: Db, key: Key, offset: nat, limit: nat): set<seq<byte>> {
    var n := if limit == 0 then MAX_INT4 else limit;
    (if Rows(db.chunks, key) == [] then {} else {Window(Aggregate(db, key), offset, n)})
    + (if key in db.logs then {Window(db.logs[key], offset, n)} else {})
  }

  class LogTables {
    var chunks: seq<Chunk>
    var logs: map<Key, seq<byte>>

    function Abs(): Db
      reads this
    {
      Db(chunks, logs)
    }

    method PutChunk(c: Chunk) returns (ok: bool)
      modifies this
      ensures (Abs(), ok) == Put(old(Abs()), c)
    {
      var saved := chunks;
      chunks := chunks + [c];
      if !c.IsEnd() {
        return true;
      }
      if c.key in logs {
        chunks := saved; // unique violation: roll back
        return false;
      }
      logs := logs[c.key := Aggregate(Abs(), c.key)];
      chunks := Without(chunks, c.key);
      return true;
    }

    /** With several rows the driver takes whichever comes first; with none there is no
        log yet. */
    method GetChunk(key: Key, offset: nat, limit: nat) returns (c: Chunk)
      ensures c.key == key && c.offset == offset
      ensures ReadRows(Abs(), key, offset, limit) == {} ==> c.data == []
      ensures ReadRows(Abs(), key, offset, limit) != {} ==> c.data in ReadRows(Abs(), key, offset, limit)
    {
      var rows := ReadRows(Abs(), key, offset, limit);
      if rows == {} {
        return Chunk(key, offset, []);
      }
      var data :| data in rows;
      return Chunk(key, offset, data);
    }
  }

  /** A read without a limit gives all there is from the offset on, of up to 2147483647 bytes,
      and of more that many. */
  lemma UnlimitedRead(db: Db, key: Key, offset: nat)
    requires key in db.logs && Rows(db.chunks, key) == []
    ensures var log := db.logs[key];
            var start := if offset < |log| then offset else |log|;
            ReadRows(db, key, offset, 0) == {if |log| - start <= 2147483647 then log[start..] else log[start..start + 2147483647]}
  {
    var log := db.logs[key];
    var start := if offset < |log| then offset else |log|;
    var rest := log[start..];
    assert From(log, offset) == rest && |rest| == |log| - start;
    if |rest| > 2147483647 {
      assert Window(log, offset, MAX_INT4) == rest[..2147483647] == log[start..start + 2147483647];
    } else {
      assert Window(log, offset, MAX_INT4) == rest[..|rest|] == rest;
    }
  }

  /* ---------- Rows of one phase ---------- */

  lemma RowsOfAppend(chunks: seq<Chunk>, c: Chunk, key: Key)
    ensures Rows(chunks + [c], key) == if c.key == key then Rows(chunks, key) + [c] else Rows(chunks, key)
  {
    assert (chunks + [c])[..|chunks|] == chunks;
  }

  lemma {:induction false} RowsWithout(chunks: seq<Chunk>, gone: Key, key: Key)
    ensures Rows(Without(chunks, gone), key) == if gone == key then [] else Rows(chunks, key)
  {
    if chunks != [] {
      var init, last := chunks[..|chunks| - 1], chunks[|chunks| - 1];
      RowsWithout(init, gone, key);
      if last.key != gone { RowsOfAppend(Without(init, gone), last, key); }
    }
  }

  /** Logging one phase leaves every other phase's rows and reads alone. */
  lemma PutLeavesOthers(db: Db, c: Chunk, key: Key)
    requires c.key != key
    ensures var db' := Put(db, c).0;
            && Rows(db'.chunks, key) == Rows(db.chunks, key)
            && (key in db'.logs <==> key in db.logs)
            && (key in db.logs ==> db'.logs[key] == db.logs[key])
    ensures forall offset: nat, limit: nat :: ReadRows(Put(db, c).0, key, offset, limit) == ReadRows(db, key, offset, limit)
  {
    RowsOfAppend(db.chunks, c, key);
    RowsWithout(db.chunks + [c], c.key, key);
  }

  /** Coalescing changes no read. */
  lemma CoalesceChangesNoRead(db: Db, key: Key, offset: nat, limit: nat)
    requires key !in db.logs && Rows(db.chunks, key) != []
    ensures ReadRows(Coalesce(db, key), key, offset, limit) == ReadRows(db, key, offset, limit)
    ensures Rows(Coalesce(db, key).chunks, key) == []
  {
    RowsWithout(db.chunks, key, key);
  }

  /* ---------- Order of arrival ---------- */

  ghost predicate Ascending(rows: seq<Chunk>) {
    forall i, j :: 0 <= i < j < |rows| ==> rows[i].offset < rows[j].offset
  }

  ghost predicate DistinctOffsets(rows: seq<Chunk>) {
    forall i, j :: 0 <= i < j < |rows| ==> rows[i].offset != rows[j].offset
  }

  lemma JoinedOfAppend(rows: seq<Chunk>, c: Chunk)
    ensures Joined(rows + [c]) == Joined(rows) + c.data
  {
    assert (rows + [c])[..|rows|] == rows;
  }

  /** Rows in the order of their offsets; only copies of a row share one. */
  ghost predicate InOrder(rows: seq<Chunk>) {
    forall i, j :: 0 <= i < j < |rows| ==> rows[i].offset < rows[j].offset || rows[i] == rows[j]
  }

  lemma {:induction false} InOrderStays(rows: seq<Chunk>)
    requires InOrder(rows)
    ensures ByOffset(rows) == rows
  {
    if rows != [] {
      var init, last := rows[..|rows| - 1], rows[|rows| - 1];
      InOrderInit(rows, init);
      InOrderStays(init);
      assert Place(init, last) == init + [last] == rows;
    }
  }

  lemma InOrderInit(rows: seq<Chunk>, init: seq<Chunk>)
    requires InOrder(rows) && rows != [] && init == rows[..|rows| - 1]
    ensures InOrder(init) && (init != [] ==> init[|init| - 1].offset <= rows[|rows| - 1].offset)
  {
  }

  lemma {:induction false} PlaceMembers(sorted: seq<Chunk>, c: Chunk)
    ensures forall d :: d in Place(sorted, c) <==> d in sorted || d == c
  {
    if sorted != [] {
      var init, last := sorted[..|sorted| - 1], sorted[|sorted| - 1];
      PlaceMembers(init, c);
      assert sorted == init + [last];
    }
  }

  lemma {:induction false} PlaceKeepsAscending(sorted: seq<Chunk>, c: Chunk)
    requires Ascending(sorted) && forall d :: d in sorted ==> d.offset != c.offset
    ensures Ascending(Place(sorted, c))
  {
    if sorted == [] || sorted[|sorted| - 1].offset <= c.offset {
      forall i, j | 0 <= i < j < |sorted + [c]| ensures (sorted + [c])[i].offset < (sorted + [c])[j].offset {
        assert sorted[|sorted| - 1] in sorted;
      }
    } else {
      var init, last := sorted[..|sorted| - 1], sorted[|sorted| - 1];
      PlaceKeepsAscending(init, c);
      PlaceMembers(init, c);
      var p := Place(init, c);
      forall i | 0 <= i < |p| ensures p[i].offset < last.offset {
        assert p[i] in p;
      }
    }
  }

  lemma {:induction false} ByOffsetSorts(rows: seq<Chunk>)
    requires DistinctOffsets(rows)
    ensures Ascending(ByOffset(rows)) && forall d :: d in ByOffset(rows) <==> d in rows
  {
    if rows != [] {
      var init, last := rows[..|rows| - 1], rows[|rows| - 1];
      ByOffsetSorts(init);
      assert rows == init + [last];
      PlaceMembers(ByOffset(init), last);
      PlaceKeepsAscending(ByOffset(init), last);
    }
  }

  ghost predicate SameMembers(a: seq<Chunk>, b: seq<Chunk>) { forall d :: d in a <==> d in b }

  lemma BelowLast(a: seq<Chunk>, d: Chunk)
    requires Ascending(a) && d in a
    ensures a != [] && (d == a[|a| - 1] || d.offset < a[|a| - 1].offset)
  {
  }

  lemma SameLast(a: seq<Chunk>, b: seq<Chunk>)
    requires Ascending(a) && Ascending(b) && SameMembers(a, b) && a != [] && b != []
    ensures a[|a| - 1] == b[|b| - 1]
  {
    var x, y := a[|a| - 1], b[|b| - 1];
    assert x in a && y in b;
    BelowLast(a, y);
    BelowLast(b, x);
  }

  lemma InInit(a: seq<Chunk>, d: Chunk)
    requires Ascending(a) && a != []
    ensures d in a[..|a| - 1] <==> d in a && d != a[|a| - 1]
  {
    assert a == a[..|a| - 1] + [a[|a| - 1]];
  }

  lemma SameInit(a: seq<Chunk>, b: seq<Chunk>, a': seq<Chunk>, b': seq<Chunk>)
    requires Ascending(a) && Ascending(b) && SameMembers(a, b) && a != [] && b != [] && a[|a| - 1] == b[|b| - 1]
    requires a' == a[..|a| - 1] && b' == b[..|b| - 1]
    ensures SameMembers(a', b')
  {
    forall d ensures d in a' <==> d in b' {
      InInit(a, d);
      InInit(b, d);
    }
  }

  lemma SameEmptiness(a: seq<Chunk>, b: seq<Chunk>)
    requires SameMembers(a, b)
    ensures a == [] <==> b == []
  {
    assert a != [] ==> a[|a| - 1] in a;
    assert b != [] ==> b[|b| - 1] in b;
  }

  lemma {:induction false} AscendingIsUnique(a: seq<Chunk>, b: seq<Chunk>)
    requires Ascending(a) && Ascending(b) && SameMembers(a, b)
    ensures a == b
  {
    SameEmptiness(a, b);
    if a != [] {
      SameLast(a, b);
      var a', b' := a[..|a| - 1], b[..|b| - 1];
      SameInit(a, b, a', b');
      AscendingIsUnique(a', b');
      assert a == a' + [a[|a| - 1]] && b == b' + [b[|b| - 1]];
    }
  }

  lemma SameRowsSameOrder(a: seq<Chunk>, b: seq<Chunk>)
    requires DistinctOffsets(a) && DistinctOffsets(b) && multiset(a) == multiset(b)
    ensures ByOffset(a) == ByOffset(b)
    ensures a == [] <==> b == []
  {
    assert forall d :: d in a <==> d in multiset(a);
    assert forall d :: d in b <==> d in multiset(b);
    ByOffsetSorts(a);
    ByOffsetSorts(b);
    AscendingIsUnique(ByOffset(a), ByOffset(b));
    assert |multiset(a)| == |a| && |multiset(b)| == |b|;
  }

  /** The order in which a phase's chunks arrive does not matter: not to reads while the
      phase is being logged, and not to the log that the final chunk leaves behind. */
  lemma ArrivalOrderIrrelevant(a: Db, b: Db, key: Key, offset: nat, limit: nat, end: Chunk)
    requires a.logs == b.logs && end.key == key && end.IsEnd()
    requires DistinctOffsets(Rows(a.chunks, key)) && DistinctOffsets(Rows(b.chunks, key))
    requires multiset(Rows(a.chunks, key)) == multiset(Rows(b.chunks, key))
    ensures ReadRows(a, key, offset, limit) == ReadRows(b, key, offset, limit)
    ensures Put(a, end).1 == Put(b, end).1
    ensures Put(a, end).1 ==> Put(a, end).0.logs == Put(b, end).0.logs
  {
    SameRowsSameOrder(Rows(a.chunks, key), Rows(b.chunks, key));
    SameOrderSameLog(a, b, key, offset, limit, end);
  }

  lemma SameOrderSameLog(a: Db, b: Db, key: Key, offset: nat, limit: nat, end: Chunk)
    requires a.logs == b.logs && end.key == key && end.IsEnd()
    requires ByOffset(Rows(a.chunks, key)) == ByOffset(Rows(b.chunks, key))
    requires Rows(a.chunks, key) == [] <==> Rows(b.chunks, key) == []
    ensures ReadRows(a, key, offset, limit) == ReadRows(b, key, offset, limit)
    ensures Put(a, end).1 == Put(b, end).1
    ensures Put(a, end).1 ==> Put(a, end).0.logs == Put(b, end).0.logs
  {
    assert Aggregate(a, key) == Aggregate(b, key);
    FinalLog(a, end);
    FinalLog(b, end);
  }

  /** What storing the final chunk does to the logs table. */
  lemma FinalLog(db: Db, end: Chunk)
    requires end.IsEnd()
    ensures Put(db, end).1 == (end.key !in db.logs)
    ensures Put(db, end).1 ==>
              Put(db, end).0.logs == db.logs[end.key := Joined(Place(ByOffset(Rows(db.chunks, end.key)), end))]
  {
    EndPlaced(db, end);
  }

  /** Where the final chunk goes depends only on the order of the others. */
  lemma EndPlaced(db: Db, end: Chunk)
    ensures Aggregate(Insert(db, end), end.key) == Joined(Place(ByOffset(Rows(db.chunks, end.key)), end))
  {
    var rows := Rows(db.chunks, end.key);
    RowsOfAppend(db.chunks, end, end.key);
    assert (rows + [end])[..|rows|] == rows;
  }
}
