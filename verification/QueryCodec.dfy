/**
 The application/x-www-form-urlencoded codec of the connection URL's query, on
 bytes (sections 5.1 and 5.2 of the WHATWG URL Standard).
 */
module QueryCodec {
  import opened Common

  const AMPERSAND: byte := 38
  const EQUALS: byte := 61
  const PERCENT: byte := 37
  const PLUS: byte := 43
  const SPACE: byte := 32
  const NEWLINE: byte := 10

  predicate IsDigit(b: byte) { 48 <= b <= 57 }

  predicate IsLetter(b: byte) { 65 <= b <= 90 || 97 <= b <= 122 }

  /** Bytes that are written as they are: letters, digits, `*`, `-`, `.` and `_`. */
  predicate IsUnreserved(b: byte) {
    IsDigit(b) || IsLetter(b) || b in {42, 45, 46, 95}
  }

  /** An upper-case hexadecimal digit. */
  function HexDigit(n: int): (b: byte)
    requires 0 <= n < 16
    ensures IsUnreserved(b)
  {
    if n < 10 then (48 + n) as byte else (55 + n) as byte
  }

  function HexValue(b: byte): (n: Option<int>)
    ensures n.Some? ==> 0 <= n.value < 16
  {
    if IsDigit(b) then Some(b as int - 48)
    else if 65 <= b <= 70 then Some(b as int - 55)
    else if 97 <= b <= 102 then Some(b as int - 87)
    else None
  }

  function EncodeByte(b: byte): Bytes {
    if IsUnreserved(b) then [b]
    else if b == SPACE then [PLUS]
    else [PERCENT, HexDigit(b as int / 16), HexDigit(b as int % 16)]
  }

  function Encode(text: Bytes): Bytes {
    if text == [] then [] else EncodeByte(text[0]) + Encode(text[1..])
  }

  function ReplacePlus(text: Bytes): Bytes {
    seq(|text|, i requires 0 <= i < |text| => if text[i] == PLUS then SPACE else text[i])
  }

  /** A percent sign that two hexadecimal digits do not follow stands for itself. */
  function PercentDecode(text: Bytes): Bytes
    decreases |text|
  {
    if text == [] then []
    else if text[0] == PERCENT && |text| >= 3 && HexValue(text[1]).Some? && HexValue(text[2]).Some? then
      [(16 * HexValue(text[1]).value + HexValue(text[2]).value) as byte] + PercentDecode(text[3..])
    else [text[0]] + PercentDecode(text[1..])
  }

  function Decode(text: Bytes): Bytes {
    PercentDecode(ReplacePlus(text))
  }

  lemma HexRoundTrip(b: byte)
    ensures HexValue(HexDigit(b as int / 16)) == Some(b as int / 16)
    ensures HexValue(HexDigit(b as int % 16)) == Some(b as int % 16)
  {
  }

  lemma DecodeEncodedByte(b: byte, rest: Bytes)
    ensures Decode(EncodeByte(b) + rest) == [b] + Decode(rest)
  {
    var encoded := EncodeByte(b) + rest;
    var plain := ReplacePlus(encoded);
    assert plain[|EncodeByte(b)|..] == ReplacePlus(rest);
    HexRoundTrip(b);
    if !IsUnreserved(b) && b != SPACE {
      assert plain[0] == PERCENT && plain[1] == HexDigit(b as int / 16) && plain[2] == HexDigit(b as int % 16);
      assert 16 * (b as int / 16) + b as int % 16 == b as int;
    } else {
      assert plain[0] == b;
    }
  }

  /** Decoding undoes encoding, for every byte string. */
  lemma {:induction false} DecodeEncode(text: Bytes)
    ensures Decode(Encode(text)) == text
    decreases |text|
  {
    if text != [] {
      DecodeEncodedByte(text[0], Encode(text[1..]));
      DecodeEncode(text[1..]);
    }
  }

  /** Encoded text is made of unreserved bytes, `+` and `%`, so it holds no separator. */
  lemma {:induction false} EncodedIsPlain(text: Bytes)
    ensures forall b :: b in Encode(text) ==> IsUnreserved(b) || b == PLUS || b == PERCENT
    decreases |text|
  {
    if text != [] {
      EncodedIsPlain(text[1..]);
    }
  }

  /** The bytes of these characters are written as they are, a space as a plus, and
      every other byte as a percent sign and its two upper-case hexadecimal digits. */
  lemma EncodesExactly(b: byte)
    ensures var plain := 48 <= b <= 57 || 65 <= b <= 90 || 97 <= b <= 122 || b == 42 || b == 45 || b == 46 || b == 95;
            && (EncodeByte(b) == [b] <==> plain)
            && (EncodeByte(b) == [43] <==> b == 32)
            && (!plain && b != 32 ==>
                  && |EncodeByte(b)| == 3 && EncodeByte(b)[0] == 37
                  && (forall i :: 1 <= i < 3 ==> 48 <= EncodeByte(b)[i] <= 57 || 65 <= EncodeByte(b)[i] <= 70)
                  && PercentDecode(EncodeByte(b)) == [b])
  {
    if !IsUnreserved(b) && b != SPACE {
      var encoded := EncodeByte(b);
      HexRoundTrip(b);
      assert encoded[3..] == [] && 16 * (b as int / 16) + b as int % 16 == b as int;
    }
  }

  /** Decoding what was not encoded: a plus is a space, hexadecimal digits of either case
      count, and a percent sign that two of them do not follow stands for itself. */
  lemma DecodesAny(b: byte, c: byte, d: byte, rest: Bytes)
    ensures b != 37 ==> Decode([b] + rest) == [if b == 43 then 32 else b] + Decode(rest)
    ensures HexValue(c).Some? && HexValue(d).Some? ==>
              Decode([37, c, d] + rest) == [(16 * HexValue(c).value + HexValue(d).value) as byte] + Decode(rest)
    ensures HexValue(c).None? ==> Decode([37, c] + rest) == [37] + Decode([c] + rest)
    ensures Decode([37]) == [37]
  {
    assert ReplacePlus([b] + rest)[1..] == ReplacePlus(rest);
    var escaped, broken := ReplacePlus([37, c, d] + rest), ReplacePlus([37, c] + rest);
    assert escaped[3..] == ReplacePlus(rest);
    assert broken[1..] == ReplacePlus([c] + rest);
    assert ReplacePlus([37])[1..] == [];
  }

  // ----- splitting a query into pairs

  function SplitPairs(query: Bytes): (parts: seq<Bytes>)
    ensures |parts| > 0
  {
    if query == [] then [[]]
    else
      var parts := SplitPairs(query[1..]);
      if query[0] == AMPERSAND then [[]] + parts else [[query[0]] + parts[0]] + parts[1..]
  }

  /** Name and value of one part, cut at its first `=`. */
  function SplitName(part: Bytes): (Bytes, Bytes) {
    if part == [] then ([], [])
    else if part[0] == EQUALS then ([], part[1..])
    else
      var (name, value) := SplitName(part[1..]);
      ([part[0]] + name, value)
  }

  /** The decoded pairs of a query; empty parts are skipped. */
  function Pairs(query: Bytes): seq<(Bytes, Bytes)> {
    PairsOf(SplitPairs(query))
  }

  function PairsOf(parts: seq<Bytes>): seq<(Bytes, Bytes)> {
    if parts == [] then []
    else
      var (name, value) := SplitName(parts[0]);
      (if parts[0] == [] then [] else [(Decode(name), Decode(value))]) + PairsOf(parts[1..])
  }

  function WritePair(name: Bytes, value: Bytes): Bytes {
    Encode(name) + [EQUALS] + Encode(value)
  }

  /** The serializer: a separator before every pair but the first. */
  function WritePairs(pairs: seq<(Bytes, Bytes)>): Bytes {
    if pairs == [] then []
    else if |pairs| == 1 then WritePair(pairs[0].0, pairs[0].1)
    else WritePair(pairs[0].0, pairs[0].1) + [AMPERSAND] + WritePairs(pairs[1..])
  }

  lemma {:induction false} SplitAtSeparator(part: Bytes, rest: Bytes)
    requires AMPERSAND !in part
    ensures SplitPairs(part) == [part]
    ensures SplitPairs(part + [AMPERSAND] + rest) == [part] + SplitPairs(rest)
    decreases |part|
  {
    var whole := part + [AMPERSAND] + rest;
    if part == [] {
      assert whole[1..] == rest;
    } else {
      SplitAtSeparator(part[1..], rest);
      assert whole[1..] == part[1..] + [AMPERSAND] + rest;
      assert [part[0]] + part[1..] == part;
    }
  }

  lemma {:induction false} SplitAtEquals(name: Bytes, value: Bytes)
    requires EQUALS !in name
    ensures SplitName(name + [EQUALS] + value) == (name, value)
    decreases |name|
  {
    var part := name + [EQUALS] + value;
    if name == [] {
      assert part[1..] == value;
    } else {
      SplitAtEquals(name[1..], value);
      assert part[1..] == name[1..] + [EQUALS] + value;
      assert [name[0]] + name[1..] == name;
    }
  }

  lemma WrittenPairIsPlain(name: Bytes, value: Bytes)
    ensures AMPERSAND !in WritePair(name, value) && WritePair(name, value) != []
  {
    EncodedIsPlain(name);
    EncodedIsPlain(value);
  }

  lemma WrittenPair(name: Bytes, value: Bytes)
    ensures var (n, v) := SplitName(WritePair(name, value)); Decode(n) == name && Decode(v) == value
  {
    EncodedIsPlain(name);
    SplitAtEquals(Encode(name), Encode(value));
    DecodeEncode(name);
    DecodeEncode(value);
  }

  /** Parsing gives back the pairs that were written, in order, whatever bytes they hold. */
  lemma {:induction false} ParseWritten(pairs: seq<(Bytes, Bytes)>)
    requires pairs != []
    ensures Pairs(WritePairs(pairs)) == pairs
    decreases |pairs|
  {
    var first := WritePair(pairs[0].0, pairs[0].1);
    WrittenPairIsPlain(pairs[0].0, pairs[0].1);
    WrittenPair(pairs[0].0, pairs[0].1);
    if |pairs| == 1 {
      SplitAtSeparator(first, []);
      assert PairsOf([]) == [];
      assert [first][1..] == [];
    } else {
      SplitAtSeparator(first, WritePairs(pairs[1..]));
      ParseWritten(pairs[1..]);
      var parts := SplitPairs(WritePairs(pairs));
      assert parts[1..] == SplitPairs(WritePairs(pairs[1..]));
      assert pairs == [pairs[0]] + pairs[1..];
    }
  }

  /** A written query holds no line break. */
  lemma {:induction false} WrittenHasNoNewline(pairs: seq<(Bytes, Bytes)>)
    ensures NEWLINE !in WritePairs(pairs)
    decreases |pairs|
  {
    if pairs != [] {
      EncodedIsPlain(pairs[0].0);
      EncodedIsPlain(pairs[0].1);
      WrittenHasNoNewline(pairs[1..]);
    }
  }

  /** Text of unreserved bytes is written as it is. */
  lemma {:induction false} PlainIsKept(text: Bytes)
    requires forall i :: 0 <= i < |text| ==> IsUnreserved(text[i])
    ensures Encode(text) == text
    decreases |text|
  {
    if text != [] {
      PlainIsKept(text[1..]);
    }
  }

  lemma {:induction false} SplitNoEquals(part: Bytes)
    requires EQUALS !in part
    ensures SplitName(part) == (part, [])
    decreases |part|
  {
    if part != [] {
      SplitNoEquals(part[1..]);
      assert [part[0]] + part[1..] == part;
    }
  }

  /** Reading any query, part by part: an empty part stands for nothing, a part is cut at
      its first equals sign, and one without is a name with an empty value. */
  lemma QueryIsReadByParts(part: Bytes, rest: Bytes, name: Bytes, value: Bytes)
    requires AMPERSAND !in part && EQUALS !in name
    ensures Pairs(part + [38] + rest) == Pairs(part) + Pairs(rest)
    ensures Pairs([]) == []
    ensures part == name && name != [] ==> Pairs(part) == [(Decode(name), [])]
    ensures part == name + [61] + value ==> Pairs(part) == [(Decode(name), Decode(value))]
  {
    SplitAtSeparator(part, rest);
    SplitNoEquals(name);
    SplitAtEquals(name, value);
    var parts := [part] + SplitPairs(rest);
    assert parts[1..] == SplitPairs(rest) && [part][1..] == [] && PairsOf([]) == [];
    var none: Bytes := [];
    assert SplitPairs(none) == [none] && [none][1..] == [];
    assert Decode([]) == [];
  }
}
