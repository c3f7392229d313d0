/** Resource identifiers (internal/resource/tfe_id.go). */
module TfeId {
  import opened Prelude

  const BASE58 := "123456789" + "ABCDEFGHJKLM" + "NPQRSTUVWXYZ" + "abcdefghijk" + "mnopqrstuvwxyz"

  /** Digits and letters without the four that are easily confused. */
  predicate IsBase58(c: char) {
    ('1' <= c <= '9') || ('A' <= c <= 'Z' && c != 'I' && c != 'O') || ('a' <= c <= 'z' && c != 'l')
  }

  datatype TfeID = TfeID(kind: string, id: string)

  /** strings.Split(s, "-") */
  function Split(s: string): (parts: seq<string>)
    ensures |parts| >= 1
  {
    if s == "" then [""]
    else
      var rest := Split(s[1..]);
      if s[0] == '-' then [""] + rest else [[s[0]] + rest[0]] + rest[1..]
  }

  function Parse(s: string): Result<TfeID> {
    var parts := Split(s);
    if |parts| != 2 then Err("malformed ID")
    else if |parts[0]| < 2 then Err("kind must be at least 2 characters")
    else if |parts[1]| < 1 then Err("id suffix must be at least 1 character")
    else Ok(TfeID(parts[0], parts[1]))
  }

  function String(id: TfeID): string { id.kind + "-" + id.id }

  function Convert(id: TfeID, to: string): TfeID { TfeID(to, id.id) }

  /** UnmarshalText: an empty text leaves the receiver alone, and so does an error. */
  function Unmarshal(receiver: TfeID, text: string): (TfeID, bool) {
    if text == "" then (receiver, true)
    else
      match Parse(text)
      case Ok(id) => (id, true)
      case Err(_) => (receiver, false)
  }

  predicate WellFormed(id: TfeID) {
    |id.kind| >= 2 && |id.id| >= 1 && '-' !in id.kind && '-' !in id.id
  }

  lemma {:induction false} SplitPlain(s: string)
    ensures '-' !in s <==> Split(s) == [s]
    decreases |s|
  {
    if s != "" {
      SplitPlain(s[1..]);
      assert s == [s[0]] + s[1..];
    }
  }

  lemma {:induction false} SplitAtHyphen(a: string, b: string)
    requires '-' !in a
    ensures Split(a + "-" + b) == [a] + Split(b)
    decreases |a|
  {
    var s := a + "-" + b;
    if a == "" {
      assert s[1..] == b;
    } else {
      SplitAtHyphen(a[1..], b);
      assert s[1..] == a[1..] + "-" + b;
      assert [a[0]] + a[1..] == a;
    }
  }

  function Join(parts: seq<string>): string
    requires |parts| >= 1
  {
    if |parts| == 1 then parts[0] else parts[0] + "-" + Join(parts[1..])
  }

  lemma {:induction false} JoinOfSplit(s: string)
    ensures Join(Split(s)) == s
    ensures forall p :: p in Split(s) ==> '-' !in p
    decreases |s|
  {
    if s != "" {
      JoinOfSplit(s[1..]);
      var rest := Split(s[1..]);
      if s[0] == '-' {
        assert ([""] + rest)[1..] == rest;
        assert s == "" + "-" + s[1..];
      } else {
        var parts := [[s[0]] + rest[0]] + rest[1..];
        assert parts[1..] == rest[1..];
        assert s == [s[0]] + s[1..];
        assert rest[0] in rest;
      }
    }
  }

  /** Printing then parsing gives back the identifier exactly when it is well formed. */
  lemma ParseUndoesString(id: TfeID)
    ensures Parse(String(id)) == Ok(id) <==> WellFormed(id)
  {
    JoinOfSplit(String(id));
    if WellFormed(id) {
      SplitAtHyphen(id.kind, id.id);
      SplitPlain(id.id);
    }
  }

  /** Whatever parses is well formed and prints as it was. */
  lemma StringUndoesParse(s: string)
    requires Parse(s).Ok?
    ensures WellFormed(Parse(s).value) && String(Parse(s).value) == s
  {
    JoinOfSplit(s);
    var parts := Split(s);
    assert parts[0] in parts && parts[1] in parts;
    assert Join(parts[1..]) == parts[1];
  }

  /** Text survives the round trip through any receiver. */
  lemma MarshalRoundTrip(id: TfeID, receiver: TfeID)
    requires WellFormed(id)
    ensures Unmarshal(receiver, String(id)) == (id, true)
  {
    ParseUndoesString(id);
  }

  /** Any other text leaves the receiver alone: it is an error, unless it is empty. */
  lemma UnmarshalIff(receiver: TfeID, text: string)
    ensures Unmarshal(receiver, text).1 <==> text == "" || exists id :: WellFormed(id) && String(id) == text
    ensures text == "" || !Unmarshal(receiver, text).1 ==> Unmarshal(receiver, text).0 == receiver
  {
    if Parse(text).Ok? { StringUndoesParse(text); }
    if id :| WellFormed(id) && String(id) == text { ParseUndoesString(id); }
  }

  lemma AlphabetIsBase58()
    ensures |BASE58| == 58 && forall c :: c in BASE58 ==> IsBase58(c)
  {
    DigitsAndCapitals();
    SmallLetters();
  }

  lemma DigitsAndCapitals()
    ensures forall c :: c in "123456789" || c in "ABCDEFGHJKLM" || c in "NPQRSTUVWXYZ" ==> IsBase58(c)
  {
  }

  lemma SmallLetters()
    ensures forall c :: c in "abcdefghijk" || c in "mnopqrstuvwxyz" ==> IsBase58(c)
  {
  }

  /** `random` is the random source. */
  method RandomString(size: nat, alphabet: string, random: nat -> nat) returns (s: string)
    requires alphabet != ""
    ensures |s| == size && forall c :: c in s ==> c in alphabet
    ensures forall k :: 0 <= k < size ==> s[k] == alphabet[random(k) % |alphabet|]
  {
    var buf := new char[size](_ => '0');
    for i := 0 to size
      invariant forall k :: 0 <= k < i ==> buf[k] == alphabet[random(k) % |alphabet|]
    {
      buf[i] := alphabet[random(i) % |alphabet|];
    }
    s := buf[..];
  }

  /** Sixteen characters of an alphabet without a hyphen make the identifier well formed, if
      the kind is, also after conversion to another kind. */
  method NewTfeID(kind: string, random: nat -> nat) returns (id: TfeID)
    ensures id.kind == kind && |id.id| == 16 && forall c :: c in id.id ==> IsBase58(c)
    ensures forall k :: 0 <= k < 16 ==> id.id[k] == BASE58[random(k) % |BASE58|]
    ensures Parse(String(id)) == Ok(id) <==> |kind| >= 2 && '-' !in kind
    ensures forall to: string :: Convert(id, to).kind == to && Convert(id, to).id == id.id
    ensures forall to: string :: |to| >= 2 && '-' !in to ==> Parse(String(Convert(id, to))) == Ok(Convert(id, to))
  {
    AlphabetIsBase58();
    assert !IsBase58('-');
    var suffix := RandomString(16, BASE58, random);
    id := TfeID(kind, suffix);
    ParseUndoesString(id);
    forall to: string | |to| >= 2 && '-' !in to ensures Parse(String(Convert(id, to))) == Ok(Convert(id, to)) {
      ParseUndoesString(Convert(id, to));
    }
  }
}
