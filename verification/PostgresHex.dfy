/** Byte strings as Postgres puts them in a JSON record: quoted, with a doubly escaped
    hex prefix (PostgresHex in internal/run/chunk.go; base 16 is section 8 of RFC 4648). */
module PostgresHex {
  import opened Prelude
  import opened Chunks

  const PREFIX := "\\\\x"

  function TrimLeft(s: string): string {
    if s != "" && s[0] == '\"' then TrimLeft(s[1..]) else s
  }

  function TrimRight(s: string): string {
    if s != "" && s[|s| - 1] == '\"' then TrimRight(s[..|s| - 1]) else s
  }

  /** The hex digits, once the quotes and the prefix are gone. */
  function Body(data: string): string {
    var s := TrimRight(TrimLeft(data));
    if PREFIX <= s then s[|PREFIX|..] else s
  }

  function DigitValue(c: char): (r: Option<int>)
    ensures r.Some? ==> 0 <= r.value < 16
  {
    if '0' <= c <= '9' then Some(c as int - '0' as int)
    else if 'a' <= c <= 'f' then Some(c as int - 'a' as int + 10)
    else if 'A' <= c <= 'F' then Some(c as int - 'A' as int + 10)
    else None
  }

  function Digit(n: int): char
    requires 0 <= n < 16
  {
    if n < 10 then (n + '0' as int) as char else (n - 10 + 'a' as int) as char
  }

  function DecodeHex(s: string): Result<seq<byte>> {
    if s == "" then Ok([])
    else if |s| == 1 then Err("odd length hex string")
    else if DigitValue(s[|s| - 2]).None? || DigitValue(s[|s| - 1]).None? then Err("invalid byte")
    else
      match DecodeHex(s[..|s| - 2])
      case Err(e) => Err(e)
      case Ok(bs) => Ok(bs + [16 * DigitValue(s[|s| - 2]).value + DigitValue(s[|s| - 1]).value])
  }

  function Unmarshal(data: string): Result<seq<byte>> { DecodeHex(Body(data)) }

  function EncodeHex(bs: seq<byte>): string {
    if bs == [] then "" else EncodeHex(bs[..|bs| - 1]) + [Digit(bs[|bs| - 1] / 16), Digit(bs[|bs| - 1] % 16)]
  }

  /** The record's form of a byte string. */
  function Marshal(bs: seq<byte>): string { "\"" + PREFIX + EncodeHex(bs) + "\"" }

  /** Quotes, two backslashes, an x and the digits. */
  lemma RecordForm(bs: seq<byte>)
    ensures Marshal(bs) == ['\"', '\\', '\\', 'x'] + EncodeHex(bs) + ['\"']
  {
    assert PREFIX == ['\\', '\\', 'x'];
  }

  /** The digits, in either case. */
  lemma DigitsAre(n: nat)
    requires n < 16
    ensures Digit(n) == "0123456789abcdef"[n]
    ensures DigitValue("0123456789abcdef"[n]) == Some(n) == DigitValue("0123456789ABCDEF"[n])
  {
  }

  /** A byte is two of them, the higher first. */
  lemma ByteIs(n: byte, hi: char, lo: char)
    requires hi == "0123456789abcdef"[n / 16] && lo == "0123456789abcdef"[n % 16]
    ensures EncodeHex([n]) == [hi, lo] && DecodeHex([hi, lo]) == Ok([n])
  {
    DigitsAre(n / 16);
    DigitsAre(n % 16);
    EncodeOne(n);
    DecodePair("", hi, lo);
    assert "" + [hi, lo] == [hi, lo] && [] + [n] == [n];
  }

  lemma EncodeOne(n: byte)
    ensures EncodeHex([n]) == [Digit(n / 16), Digit(n % 16)]
  {
    assert [n][..0] == [] && EncodeHex([]) == "";
  }

  /** hex.Decode fills a buffer of half the length, two digits at a time. */
  method UnmarshalJSON(data: string) returns (r: Result<seq<byte>>)
    ensures r.Ok? == Unmarshal(data).Ok?
    ensures r.Ok? ==> r == Unmarshal(data)
  {
    var body := Body(data);
    var dst := new byte[|body| / 2];
    for i := 0 to |body| / 2
      invariant DecodeHex(body[..2 * i]) == Ok(dst[..i])
    {
      var hi, lo := DigitValue(body[2 * i]), DigitValue(body[2 * i + 1]);
      assert body[..2 * (i + 1)][..2 * i] == body[..2 * i];
      if hi.None? || lo.None? {
        DecodeFails(body, i);
        return Err("invalid byte");
      }
      dst[i] := 16 * hi.value + lo.value;
      assert dst[..i + 1] == dst[..i] + [dst[i]];
    }
    if |body| % 2 == 1 {
      OddFails(body);
      return Err("odd length hex string");
    }
    assert body[..2 * (|body| / 2)] == body && dst[..|body| / 2] == dst[..];
    return Ok(dst[..]);
  }

  predicate AllDigits(s: string) { forall i :: 0 <= i < |s| ==> DigitValue(s[i]).Some? }

  /** Decoding succeeds exactly on an even number of hex digits, and then halves the length. */
  lemma {:induction false} DecodesIffWholePairs(s: string)
    ensures DecodeHex(s).Ok? <==> |s| % 2 == 0 && AllDigits(s)
    ensures DecodeHex(s).Ok? ==> 2 * |DecodeHex(s).value| == |s|
  {
    if |s| >= 2 {
      DecodesIffWholePairs(s[..|s| - 2]);
      assert AllDigits(s) <==> AllDigits(s[..|s| - 2]) && DigitValue(s[|s| - 2]).Some? && DigitValue(s[|s| - 1]).Some?;
    }
  }

  lemma DecodeFails(s: string, i: nat)
    requires 2 * i + 1 < |s| && (DigitValue(s[2 * i]).None? || DigitValue(s[2 * i + 1]).None?)
    ensures DecodeHex(s).Err?
  {
    DecodesIffWholePairs(s);
  }

  lemma OddFails(s: string)
    requires |s| % 2 == 1
    ensures DecodeHex(s).Err?
  {
    DecodesIffWholePairs(s);
  }

  lemma DigitRoundTrip(n: int)
    requires 0 <= n < 16
    ensures DigitValue(Digit(n)) == Some(n) && Digit(n) != '\"'
  {
  }

  lemma DecodePair(s: string, hi: char, lo: char)
    requires DigitValue(hi).Some? && DigitValue(lo).Some? && DecodeHex(s).Ok?
    ensures DecodeHex(s + [hi, lo]) == Ok(DecodeHex(s).value + [16 * DigitValue(hi).value + DigitValue(lo).value])
  {
    DecodeStep(s + [hi, lo], s, hi, lo);
  }

  lemma DecodeStep(t: string, s: string, hi: char, lo: char)
    requires |t| >= 2 && t[..|t| - 2] == s && t[|t| - 2] == hi && t[|t| - 1] == lo
    requires DigitValue(hi).Some? && DigitValue(lo).Some? && DecodeHex(s).Ok?
    ensures DecodeHex(t) == Ok(DecodeHex(s).value + [16 * DigitValue(hi).value + DigitValue(lo).value])
  {
  }

  lemma {:induction false} HexRoundTrip(bs: seq<byte>)
    ensures DecodeHex(EncodeHex(bs)) == Ok(bs)
    ensures EncodeHex(bs) == "" || EncodeHex(bs)[|EncodeHex(bs)| - 1] != '\"'
  {
    if bs != [] {
      var init, b := bs[..|bs| - 1], bs[|bs| - 1];
      HexRoundTrip(init);
      DigitRoundTrip(b / 16);
      DigitRoundTrip(b % 16);
      DecodePair(EncodeHex(init), Digit(b / 16), Digit(b % 16));
      assert bs == init + [b];
    }
  }

  /** Every byte string survives the trip through the record. */
  lemma RoundTrip(bs: seq<byte>)
    ensures Unmarshal(Marshal(bs)) == Ok(bs)
  {
    HexRoundTrip(bs);
    var inner := PREFIX + EncodeHex(bs);
    var data := Marshal(bs);
    assert data[1..] == inner + "\"";
    assert TrimLeft(data) == TrimLeft(data[1..]) == inner + "\"";
    assert (inner + "\"")[..|inner|] == inner;
    assert inner[|inner| - 1] != '\"';
    assert TrimRight(inner) == inner;
    assert TrimRight(inner + "\"") == inner;
    assert inner[|PREFIX|..] == EncodeHex(bs);
  }
}
