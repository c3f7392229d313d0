/** Chunks of a run phase's log (internal/run/chunk.go). */
module Chunks {
  import opened Prelude

  type byte = x: int | 0 <= x < 256

  const STX: byte := 0x02
  const ETX: byte := 0x03

  /** The run and phase that a log belongs to. */
  datatype Key = Key(run: string, phase: string)

  datatype Chunk = Chunk(key: Key, offset: nat, data: seq<byte>)
  {
    function NextOffset(): nat { offset + |data| }

    predicate IsStart() { |data| > 0 && data[0] == STX }

    predicate IsEnd() { |data| > 0 && data[|data| - 1] == ETX }

    /** Cutting before the chunk's own offset is a slice out of range. A zero limit, or
        one reaching past the end, means the rest of the chunk. */
    function Cut(from: nat, limit: nat): Chunk
      requires offset <= from
    {
      if from > NextOffset() then Chunk(Key("", ""), NextOffset(), [])
      else
        var n := if from + limit > NextOffset() || limit == 0 then NextOffset() - from else limit;
        Chunk(key, from, data[from - offset..from - offset + n])
    }
  }

  /** A chunk must have data. */
  function NewChunk(key: Key, offset: nat, data: seq<byte>): Result<Chunk> {
    if |data| == 0 then Err("cowardly refusing to create empty log chunk") else Ok(Chunk(key, offset, data))
  }

  /** What lies at and after a position. */
  function From(log: seq<byte>, offset: nat): seq<byte> { log[Min(offset, |log|)..] }

  /** At most `n` bytes from a position. */
  function Window(log: seq<byte>, offset: nat, n: nat): seq<byte> {
    From(log, offset)[..Min(n, |From(log, offset)|)]
  }

  /** Cut is a window on the chunk's data, whatever the limit. */
  lemma CutIsWindow(c: Chunk, from: nat, limit: nat)
    requires c.offset <= from
    ensures c.Cut(from, limit).data ==
            if limit == 0 then From(c.data, from - c.offset) else Window(c.data, from - c.offset, limit)
    ensures c.Cut(from, limit).NextOffset() <= c.NextOffset()
    ensures c.Cut(from, limit).NextOffset() == c.NextOffset() ==> c.Cut(from, limit).IsEnd() == (from < c.NextOffset() && c.IsEnd())
  {
  }

  /** Reading a chunk piece by piece, each time from where the last piece ended, terminates
      and yields the whole. */
  method ReadByCuts(c: Chunk, limit: nat) returns (all: seq<byte>)
    requires limit > 0
    ensures all == c.data
  {
    all := [];
    var from := c.offset;
    while from < c.NextOffset()
      invariant c.offset <= from <= c.NextOffset()
      invariant all == c.data[..from - c.offset]
      decreases c.NextOffset() - from
    {
      var piece := c.Cut(from, limit);
      all := all + piece.data;
      from := piece.NextOffset();
    }
  }

  /** ToHTML before rendering: drop the start marker, then the end marker, if present. */
  function Unframed(data: seq<byte>): seq<byte> {
    var c := Chunk(Key("", ""), 0, data);
    var c1 := if c.IsStart() then c.(data := c.data[1..]) else c;
    var c2 := if c1.IsEnd() then c1.(data := c1.data[..|c1.data| - 1]) else c1;
    c2.data
  }

  /** A complete log gives back exactly what was written; one still being written does so
      exactly when that does not end in the end marker. */
  lemma UnframeRecoversPayload(payload: seq<byte>)
    ensures Unframed([0x02] + payload + [0x03]) == payload
    ensures Unframed([0x02] + payload) == payload <==> !(|payload| > 0 && payload[|payload| - 1] == 0x03)
  {
    assert ([STX] + payload + [ETX])[1..] == payload + [ETX];
    assert ([STX] + payload)[1..] == payload;
    assert (payload + [ETX])[..|payload|] == payload;
  }
}
