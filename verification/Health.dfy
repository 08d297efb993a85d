/** The hand-written codec of the SDK's health service (sdk/src/health.ts). Numbers are the
    32-bit integers JavaScript's bit operators work on. */
module Health {
  import opened Domain

  type Bytes = seq<bv8>

  // ----- the bit operations ----------------------------------------------------

  predicate Small(n: bv32) { n < 128 }

  function Low(n: bv32): bv32 { n & 0x7f }

  function Rest(n: bv32): bv32 { n >> 7 }

  function LastByte(n: bv32): bv8
    requires Small(n)
  {
    n as bv8
  }

  function LowByte(n: bv32): bv8 { (n & 0x7f) as bv8 }

  function Continued(byte: bv8): bv8 { byte | 0x80 }

  predicate Ends(byte: bv8) { byte & 0x80 == 0 }

  function Payload(byte: bv8): bv32 { byte as bv32 & 0x7f }

  /** A shift as JavaScript does it: the count wraps at 32, so an 8-bit count loses nothing. */
  function ShiftLeft(n: bv32, shift: bv8): bv32 { n << (shift & 31) }

  function Or(a: bv32, b: bv32): bv32 { a | b }

  lemma RestShrinks(n: bv32)
    ensures !Small(n) ==> Rest(n) < n
    ensures Rest(n) == 0 <==> Small(n)
  {
  }

  lemma BytesRead(n: bv32)
    ensures Small(n) ==> Ends(LastByte(n)) && Payload(LastByte(n)) == n
    ensures !Small(n) ==> !Ends(Continued(LowByte(n))) && Payload(Continued(LowByte(n))) == Low(n)
    ensures Small(n) ==> LowByte(n) == LastByte(n)
  {
  }

  /** What is left of 32 bits after k groups of seven holds n. */
  predicate Fits(n: bv32, k: nat)
    requires k < 5
  {
    match k
    case 0 => true
    case 1 => n < 0x200_0000
    case 2 => n < 0x4_0000
    case 3 => n < 0x800
    case 4 => n < 0x10
  }

  /** The shift count after k groups. */
  function Places(k: nat): bv8
    requires k < 5
  {
    match k
    case 0 => 0
    case 1 => 7
    case 2 => 14
    case 3 => 21
    case 4 => 28
  }

  lemma FitsFirst(n: bv32)
    ensures Fits(n, 0) && ShiftLeft(n, 0) == n && Or(0, n) == n
  {
  }

  lemma FitsLast(n: bv32)
    ensures Fits(n, 4) ==> Small(n)
  {
  }

  lemma FitsNext(n: bv32, k: nat)
    requires k < 4 && Fits(n, k)
    ensures Fits(Rest(n), k + 1)
  {
    match k
    case 0 => Shrinks0(n);
    case 1 => Shrinks1(n);
    case 2 => Shrinks2(n);
    case 3 => Shrinks3(n);
  }

  lemma Shrinks0(n: bv32) ensures n >> 7 < 0x200_0000 { }
  lemma Shrinks1(n: bv32) requires n < 0x200_0000 ensures n >> 7 < 0x4_0000 { }
  lemma Shrinks2(n: bv32) requires n < 0x4_0000 ensures n >> 7 < 0x800 { }
  lemma Shrinks3(n: bv32) requires n < 0x800 ensures n >> 7 < 0x10 { }

  /** Seven bits and the rest, each in its place, are the whole in its place. */
  lemma GroupsJoin(n: bv32, r: bv32, k: nat)
    requires k < 4
    ensures Or(Or(r, ShiftLeft(Low(n), Places(k))), ShiftLeft(Rest(n), Places(k + 1))) == Or(r, ShiftLeft(n, Places(k)))
  {
    match k
    case 0 => Group0(n, r);
    case 1 => Group1(n, r);
    case 2 => Group2(n, r);
    case 3 => Group3(n, r);
  }

  lemma Group0(n: bv32, r: bv32) ensures Or(Or(r, ShiftLeft(Low(n), 0)), ShiftLeft(Rest(n), 7)) == Or(r, ShiftLeft(n, 0)) { }
  lemma Group1(n: bv32, r: bv32) ensures Or(Or(r, ShiftLeft(Low(n), 7)), ShiftLeft(Rest(n), 14)) == Or(r, ShiftLeft(n, 7)) { }
  lemma Group2(n: bv32, r: bv32) ensures Or(Or(r, ShiftLeft(Low(n), 14)), ShiftLeft(Rest(n), 21)) == Or(r, ShiftLeft(n, 14)) { }
  lemma Group3(n: bv32, r: bv32) ensures Or(Or(r, ShiftLeft(Low(n), 21)), ShiftLeft(Rest(n), 28)) == Or(r, ShiftLeft(n, 21)) { }

  // ----- varints ---------------------------------------------------------------

  function EncodedVarint(n: bv32): Bytes
    decreases n
  {
    RestShrinks(n);
    if Small(n) then [LastByte(n)] else [Continued(LowByte(n))] + EncodedVarint(Rest(n))
  }

  /** The decoder from a point inside a varint: the value and the index after it. */
  function DecodedVarint(buffer: Bytes, index: nat, result: bv32, shift: bv8): Option<(bv32, nat)>
    decreases |buffer| - index
  {
    if index >= |buffer| then None
    else
      var next := Or(result, ShiftLeft(Payload(buffer[index]), shift));
      if Ends(buffer[index]) then Some((next, index + 1)) else DecodedVarint(buffer, index + 1, next, shift + 7)
  }

  /** What a 32-bit result is as a JavaScript number. */
  function ToInt32(n: bv32): int {
    if n as int < 0x8000_0000 then n as int else n as int - 0x1_0000_0000
  }

  method EncodeVarint(value: bv32) returns (bytes: Bytes)
    ensures bytes == EncodedVarint(value)
  {
    hide *;
    bytes := [];
    var next, more := value, true;
    while more
      invariant more ==> bytes + EncodedVarint(next) == EncodedVarint(value)
      invariant !more ==> bytes == EncodedVarint(value)
      decreases |EncodedVarint(value)| - |bytes|
    {
      var byte := LowByte(next);
      EncodedByBytes(next);
      next := Rest(next);
      if next != 0 {
        byte := Continued(byte);
      }
      assert bytes + ([byte] + EncodedVarint(next)) == (bytes + [byte]) + EncodedVarint(next);
      bytes, more := bytes + [byte], next != 0;
    }
  }

  lemma EncodedByBytes(n: bv32)
    ensures EncodedVarint(n) == if Rest(n) == 0 then [LowByte(n)] else [Continued(LowByte(n))] + EncodedVarint(Rest(n))
    ensures |EncodedVarint(n)| > 0
  {
    hide Small, Low, LowByte, Rest, LastByte, Continued;
    RestShrinks(n);
    BytesRead(n);
  }

  method DecodeVarint(buffer: Bytes, start: nat) returns (r: Option<(bv32, nat)>)
    ensures r == DecodedVarint(buffer, start, 0, 0)
  {
    hide Payload, ShiftLeft, Or, Ends;
    var result: bv32, shift: bv8, index := 0, 0, start;
    while index < |buffer|
      invariant index >= start
      invariant DecodedVarint(buffer, index, result, shift) == DecodedVarint(buffer, start, 0, 0)
      decreases |buffer| - index
    {
      var byte := buffer[index];
      index := index + 1;
      result := Or(result, ShiftLeft(Payload(byte), shift));
      if Ends(byte) {
        return Some((result, index));
      }
      shift := shift + 7;
    }
    return None;
  }

  lemma {:induction false} DecodesWhatIsEncoded(n: bv32, before: Bytes, after: Bytes, r: bv32, k: nat)
    requires k < 5 && Fits(n, k)
    ensures DecodedVarint(before + EncodedVarint(n) + after, |before|, r, Places(k))
            == Some((Or(r, ShiftLeft(n, Places(k))), |before| + |EncodedVarint(n)|))
    ensures 1 <= |EncodedVarint(n)| <= 5 - k
    decreases n
  {
    hide Small, Low, LowByte, Rest, LastByte, Continued, Payload, ShiftLeft, Or, Ends, Fits;
    var buffer := before + EncodedVarint(n) + after;
    RestShrinks(n);
    BytesRead(n);
    FitsLast(n);
    assert buffer[|before|] == EncodedVarint(n)[0];
    if !Small(n) {
      var byte := Continued(LowByte(n));
      FitsNext(n, k);
      GroupsJoin(n, r, k);
      DecodesWhatIsEncoded(Rest(n), before + [byte], after, Or(r, ShiftLeft(Low(n), Places(k))), k + 1);
      assert before + [byte] + EncodedVarint(Rest(n)) + after == buffer;
    }
  }

  /**
   * Every 32-bit value comes back from its own encoding, in at most five bytes, with the
   * index just past it whatever follows - and as a JavaScript number exactly when it is
   * below 2^31.
   */
  lemma VarintRoundTrip(n: bv32, before: Bytes, after: Bytes)
    ensures DecodedVarint(before + EncodedVarint(n) + after, |before|, 0, 0) == Some((n, |before| + |EncodedVarint(n)|))
    ensures 1 <= |EncodedVarint(n)| <= 5
    ensures ToInt32(n) == n as int <==> n as int < 0x8000_0000
  {
    hide EncodedVarint, DecodedVarint;
    FitsFirst(n);
    DecodesWhatIsEncoded(n, before, after, 0, 0);
  }

  /** The format itself, on the standard's own example: 150 is 0x96 0x01, low group first. */
  lemma WireFormat()
    ensures EncodedVarint(150) == [0x96, 0x01] && EncodedVarint(1) == [0x01] && EncodedVarint(300) == [0xac, 0x02]
  {
    EncodedByBytes(150);
    EncodedByBytes(1);
    EncodedByBytes(300);
    EncodedByBytes(2);
    hide EncodedVarint;
  }

  // ----- string fields ---------------------------------------------------------

  /** The one tag byte the encoder writes; a larger field number is cut to eight bits. */
  function TagByte(fieldNumber: bv32): bv8 { ((fieldNumber & 31) as bv8 << 3) | 2 }

  function FieldOf(tag: bv8): bv32 { (tag >> 3) as bv32 }

  function WireTypeOf(tag: bv8): bv8 { tag & 7 }

  lemma TagReads(f: bv32)
    ensures WireTypeOf(TagByte(f)) == 2
    ensures FieldOf(TagByte(f)) == f <==> f < 32
  {
  }

  /** A length as the bit operators see it. */
  function LengthBits(length: nat): bv32 { (length % 0x1_0000_0000) as bv32 }

  lemma LengthReads(length: nat)
    requires length < 0x8000_0000
    ensures ToInt32(LengthBits(length)) == length
  {
  }

  function EncodedStringField(fieldNumber: bv32, value: Bytes): Bytes {
    if value == [] then [] else [TagByte(fieldNumber)] + EncodedVarint(LengthBits(|value|)) + value
  }

  /** Buffer.subarray: a negative end counts from the back. */
  function Subarray(buffer: Bytes, start: nat, end: int): Bytes {
    var stop := if end >= 0 then end else |buffer| + end;
    if start < stop <= |buffer| then buffer[start..stop] else []
  }

  datatype Found = Found(value: Bytes) | NotFound | OutOfRounds

  /** One round from a field's start: it ends the scan, or moves it to another index. */
  datatype Round = Ended(found: Found) | Moved(index: int)

  function OneRound(buffer: Bytes, index: nat, expected: bv32): Round
    requires index < |buffer|
  {
    if WireTypeOf(buffer[index]) != 2 then Ended(NotFound)
    else
      match DecodedVarint(buffer, index + 1, 0, 0)
      case None => Ended(NotFound)
      case Some((bits, start)) =>
        var end := start + ToInt32(bits);
        if end > |buffer| then Ended(NotFound)
        else if FieldOf(buffer[index]) == expected then Ended(Found.Found(Subarray(buffer, start, end)))
        else Moved(end)
  }

  /** At most `rounds` rounds of the scan. A read before the buffer's start is no string field. */
  function Scan(buffer: Bytes, index: int, expected: bv32, rounds: nat): Found
    decreases rounds
  {
    if index >= |buffer| || index < 0 then NotFound
    else if rounds == 0 then OutOfRounds
    else
      match OneRound(buffer, index, expected)
      case Ended(found) => found
      case Moved(next) => Scan(buffer, next, expected, rounds - 1)
  }

  method EncodeStringField(fieldNumber: bv32, value: Bytes) returns (bytes: Bytes)
    ensures bytes == EncodedStringField(fieldNumber, value)
  {
    if value == [] {
      return [];
    }
    var length := EncodeVarint(LengthBits(|value|));
    bytes := [TagByte(fieldNumber)] + length + value;
  }

  /** The loop, with as many rounds as the buffer has bytes: OutOfRounds is the answer exactly
      when the source's own loop never ends. */
  method DecodeFirstStringField(buffer: Bytes, expected: bv32) returns (found: Found)
    ensures found == Scan(buffer, 0, expected, |buffer|)
    ensures found == OutOfRounds <==> Endless(buffer, 0, expected)
  {
    hide WireTypeOf, FieldOf, DecodedVarint, ToInt32, Subarray, Endless;
    EndlessExactly(buffer, 0, expected);
    var index := 0;
    var left: nat := |buffer|;
    while index < |buffer|
      invariant Scan(buffer, index, expected, left) == Scan(buffer, 0, expected, |buffer|)
      decreases left
    {
      if index < 0 {
        return NotFound;
      }
      if left == 0 {
        return OutOfRounds;
      }
      var tag := buffer[index];
      if WireTypeOf(tag) != 2 {
        return NotFound;
      }
      var length := DecodeVarint(buffer, index + 1);
      if length.None? {
        return NotFound;
      }
      var end := length.value.1 + ToInt32(length.value.0);
      if end > |buffer| {
        return NotFound;
      }
      if FieldOf(tag) == expected {
        return Found.Found(Subarray(buffer, length.value.1, end));
      }
      index, left := end, left - 1;
    }
    return NotFound;
  }

  /** A round that starts at an encoded field finds its value or moves just past it. */
  lemma RoundReadsField(before: Bytes, f: bv32, value: Bytes, after: Bytes, expected: bv32)
    requires value != [] && |value| < 0x8000_0000
    ensures |EncodedStringField(f, value)| > 0
    ensures OneRound(before + EncodedStringField(f, value) + after, |before|, expected) ==
            if FieldOf(TagByte(f)) == expected then Ended(Found.Found(value)) else Moved(|before| + |EncodedStringField(f, value)|)
  {
    hide WireTypeOf, FieldOf, TagByte, DecodedVarint, EncodedVarint, ToInt32, LengthBits;
    var length := LengthBits(|value|);
    var field := EncodedStringField(f, value);
    var buffer := before + field + after;
    TagReads(f);
    LengthReads(|value|);
    VarintRoundTrip(length, before + [TagByte(f)], value + after);
    assert buffer == (before + [TagByte(f)]) + EncodedVarint(length) + (value + after);
    assert buffer[|before|] == TagByte(f);
    var start := |before| + 1 + |EncodedVarint(length)|;
    assert buffer[start..start + |value|] == value;
  }

  datatype StringField = StringField(number: bv32, value: Bytes)

  function EncodedFields(fields: seq<StringField>): Bytes {
    if fields == [] then [] else EncodedStringField(fields[0].number, fields[0].value) + EncodedFields(fields[1..])
  }

  function FirstOf(fields: seq<StringField>, number: bv32): Found {
    if fields == [] then NotFound
    else if fields[0].number == number then Found.Found(fields[0].value)
    else FirstOf(fields[1..], number)
  }

  ghost predicate Encodable(f: StringField) {
    f.number < 32 && 0 < |f.value| < 0x8000_0000
  }

  /** Of any message of string fields, the decoder finds the first with the number asked for,
      and nothing when there is none. */
  lemma {:induction false} FirstFieldRoundTrip(before: Bytes, fields: seq<StringField>, expected: bv32, rounds: nat)
    requires (forall f :: f in fields ==> Encodable(f)) && rounds >= |fields|
    ensures Scan(before + EncodedFields(fields), |before|, expected, rounds) == FirstOf(fields, expected)
    decreases |fields|
  {
    hide OneRound, EncodedStringField, TagByte, FieldOf;
    if fields == [] {
      assert before + EncodedFields(fields) == before;
    } else {
      var f := fields[0];
      assert Encodable(f);
      var field := EncodedStringField(f.number, f.value);
      RoundReadsField(before, f.number, f.value, EncodedFields(fields[1..]), expected);
      TagReads(f.number);
      assert before + field + EncodedFields(fields[1..]) == before + EncodedFields(fields);
      if f.number != expected {
        FirstFieldRoundTrip(before + field, fields[1..], expected, rounds - 1);
      }
    }
  }

  lemma {:induction false} FieldsTakeBytes(fields: seq<StringField>)
    requires forall f :: f in fields ==> Encodable(f)
    ensures |EncodedFields(fields)| >= |fields|
    decreases |fields|
  {
    hide EncodedStringField;
    if fields != [] {
      assert Encodable(fields[0]);
      RoundReadsField([], fields[0].number, fields[0].value, [], 0);
      FieldsTakeBytes(fields[1..]);
    }
  }

  /** So the decoder as it is called finds it, whatever the number of fields. */
  lemma DecodesAnyFields(fields: seq<StringField>, expected: bv32)
    requires forall f :: f in fields ==> Encodable(f)
    ensures var buffer := EncodedFields(fields); Scan(buffer, 0, expected, |buffer|) == FirstOf(fields, expected)
  {
    FieldsTakeBytes(fields);
    FirstFieldRoundTrip([], fields, expected, |EncodedFields(fields)|);
    assert [] + EncodedFields(fields) == EncodedFields(fields);
  }

  /** On its own, a non-empty field comes back exactly when its number fits the one tag byte. */
  lemma StringFieldRoundTrip(f: bv32, value: Bytes, rounds: nat)
    requires value != [] && |value| < 0x8000_0000 && rounds > 0
    ensures Scan(EncodedStringField(f, value), 0, f, rounds) == Found.Found(value) <==> f < 32
  {
    hide OneRound, EncodedStringField, TagByte, FieldOf;
    RoundReadsField([], f, value, [], f);
    TagReads(f);
    assert [] + EncodedStringField(f, value) + [] == EncodedStringField(f, value);
  }

  /** No length anywhere in the buffer reads as a negative number. */
  ghost predicate LengthsCount(buffer: Bytes) {
    forall i: nat :: i <= |buffer| ==> LengthCounts(DecodedVarint(buffer, i, 0, 0))
  }

  predicate LengthCounts(r: Option<(bv32, nat)>) {
    r.Some? ==> ToInt32(r.value.0) >= 0
  }

  lemma {:induction false} VarintAdvances(buffer: Bytes, index: nat, result: bv32, shift: bv8)
    ensures var r := DecodedVarint(buffer, index, result, shift); r.Some? ==> index < r.value.1 <= |buffer|
    decreases |buffer| - index
  {
    hide Or, ShiftLeft, Payload, Ends;
    if index < |buffer| {
      VarintAdvances(buffer, index + 1, Or(result, ShiftLeft(Payload(buffer[index]), shift)), shift + 7);
    }
  }

  /** Then every round moves forward and the scan ends within as many rounds as there are bytes. */
  lemma {:induction false} ScanEnds(buffer: Bytes, index: nat, expected: bv32, rounds: nat)
    requires LengthsCount(buffer) && rounds + index >= |buffer|
    ensures Scan(buffer, index, expected, rounds) != OutOfRounds
    decreases rounds
  {
    hide WireTypeOf, FieldOf, DecodedVarint, ToInt32, Subarray;
    if index < |buffer| {
      assert LengthCounts(DecodedVarint(buffer, index + 1, 0, 0));
      VarintAdvances(buffer, index + 1, 0, 0);
      match OneRound(buffer, index, expected)
      case Ended(_) =>
      case Moved(next) => ScanEnds(buffer, next, expected, rounds - 1);
    }
  }

  // ----- when the scan never ends ----------------------------------------------

  /** No number of rounds is enough. */
  ghost predicate Endless(buffer: Bytes, index: int, expected: bv32) {
    forall rounds: nat :: Scan(buffer, index, expected, rounds) == OutOfRounds
  }

  /** The indices the scan starts its rounds at. */
  function Starts(buffer: Bytes, index: int, expected: bv32, rounds: nat): set<int>
    decreases rounds
  {
    if index >= |buffer| || index < 0 || rounds == 0 then {}
    else
      match OneRound(buffer, index, expected)
      case Ended(_) => {index}
      case Moved(next) => {index} + Starts(buffer, next, expected, rounds - 1)
  }

  lemma {:induction false} MoreRounds(buffer: Bytes, index: int, expected: bv32, rounds: nat, more: nat)
    requires rounds <= more && Scan(buffer, index, expected, rounds) != OutOfRounds
    ensures Scan(buffer, index, expected, more) == Scan(buffer, index, expected, rounds)
    decreases rounds
  {
    hide OneRound;
    if 0 <= index < |buffer| {
      match OneRound(buffer, index, expected)
      case Ended(_) =>
      case Moved(next) => MoreRounds(buffer, next, expected, rounds - 1, more - 1);
    }
  }

  /** A scan that ends would end from any index it passes, with no more rounds. */
  lemma {:induction false} EndsFromEach(buffer: Bytes, index: int, expected: bv32, rounds: nat, j: int)
    requires Scan(buffer, index, expected, rounds) != OutOfRounds && j in Starts(buffer, index, expected, rounds)
    ensures Scan(buffer, j, expected, rounds) != OutOfRounds
    decreases rounds
  {
    hide OneRound;
    if j != index {
      match OneRound(buffer, index, expected)
      case Ended(_) =>
      case Moved(next) =>
        EndsFromEach(buffer, next, expected, rounds - 1, j);
        MoreRounds(buffer, j, expected, rounds - 1, rounds);
    }
  }

  /** While the rounds are needed, every start is a new one. */
  lemma {:induction false} StartsAreNew(buffer: Bytes, index: int, expected: bv32, rounds: nat)
    requires Scan(buffer, index, expected, rounds) != OutOfRounds
    requires rounds > 0 ==> Scan(buffer, index, expected, rounds - 1) == OutOfRounds
    ensures |Starts(buffer, index, expected, rounds)| == rounds
    ensures forall j :: j in Starts(buffer, index, expected, rounds) ==> 0 <= j < |buffer|
    decreases rounds
  {
    hide OneRound;
    if rounds > 0 {
      match OneRound(buffer, index, expected)
      case Ended(_) =>
      case Moved(next) =>
        StartsAreNew(buffer, next, expected, rounds - 1);
        if index in Starts(buffer, next, expected, rounds - 1) {
          EndsFromEach(buffer, next, expected, rounds - 1, index);
        }
    }
  }

  lemma {:induction false} IndicesFit(s: set<int>, n: nat)
    requires forall j :: j in s ==> 0 <= j < n
    ensures |s| <= n
    decreases n
  {
    if n == 0 {
      forall j ensures j !in s { }
      assert s == {};
    } else {
      IndicesFit(s - {n - 1}, n - 1);
      assert s <= s - {n - 1} + {n - 1};
      assert |s| <= |s - {n - 1}| + 1 by {
        if n - 1 in s { assert s == s - {n - 1} + {n - 1}; } else { assert s == s - {n - 1}; }
      }
    }
  }

  lemma {:induction false} LeastRounds(buffer: Bytes, index: int, expected: bv32, rounds: nat) returns (least: nat)
    requires Scan(buffer, index, expected, rounds) != OutOfRounds
    ensures least <= rounds && Scan(buffer, index, expected, least) != OutOfRounds
    ensures least > 0 ==> Scan(buffer, index, expected, least - 1) == OutOfRounds
  {
    hide Scan;
    least := rounds;
    if rounds > 0 && Scan(buffer, index, expected, rounds - 1) != OutOfRounds {
      least := LeastRounds(buffer, index, expected, rounds - 1);
    }
  }

  /** A scan that ends at all ends within as many rounds as there are bytes. */
  lemma EndlessExactly(buffer: Bytes, index: int, expected: bv32)
    ensures Endless(buffer, index, expected) <==> Scan(buffer, index, expected, |buffer|) == OutOfRounds
  {
    hide Scan;
    if rounds: nat :| Scan(buffer, index, expected, rounds) != OutOfRounds {
      var least := LeastRounds(buffer, index, expected, rounds);
      StartsAreNew(buffer, index, expected, least);
      IndicesFit(Starts(buffer, index, expected, least), |buffer|);
      MoreRounds(buffer, index, expected, least, |buffer|);
    }
  }

  /** A field whose length reads as -6, for a caller that asks for another: the scan comes back
      to where it started. */
  const BACKWARDS: Bytes := [0x12, 0xfa, 0xff, 0xff, 0xff, 0x0f]

  lemma BackwardsRound()
    ensures OneRound(BACKWARDS, 0, 1) == Moved(0)
  {
    BackwardsLength();
    hide DecodedVarint;
    assert WireTypeOf(0x12) == 2 && FieldOf(0x12) == 2;
  }

  lemma BackwardsLength()
    ensures DecodedVarint(BACKWARDS, 1, 0, 0) == Some((0xffff_fffa, 6)) && ToInt32(0xffff_fffa) == -6
  {
    var n: bv32 := 0xffff_fffa;
    BackwardsEncodes();
    VarintRoundTrip(n, [0x12], []);
    assert [0x12] + EncodedVarint(n) + [] == BACKWARDS;
  }

  lemma BackwardsEncodes()
    ensures EncodedVarint(0xffff_fffa) == [0xfa, 0xff, 0xff, 0xff, 0x0f]
  {
    EncodedByBytes(0xffff_fffa);
    EncodedByBytes(0x1ff_ffff);
    EncodedByBytes(0x3_ffff);
    EncodedByBytes(0x7ff);
    EncodedByBytes(0xf);
    hide EncodedVarint;
  }

  lemma ScanMayNotEnd()
    ensures Endless(BACKWARDS, 0, 1)
  {
    BackwardsRound();
    hide OneRound;
    forall rounds: nat ensures Scan(BACKWARDS, 0, 1, rounds) == OutOfRounds {
      Stuck(BACKWARDS, 0, 1, rounds);
    }
  }

  lemma {:induction false} Stuck(buffer: Bytes, index: nat, expected: bv32, rounds: nat)
    requires index < |buffer| && OneRound(buffer, index, expected) == Moved(index)
    ensures Scan(buffer, index, expected, rounds) == OutOfRounds
  {
    hide OneRound;
    if rounds > 0 {
      Stuck(buffer, index, expected, rounds - 1);
    }
  }
}
