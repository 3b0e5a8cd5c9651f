/** The shared handshake key: its hexadecimal text and the bytes it stands for. */
module HandshakeKeys {
  import opened Common
  import opened QueryCodec

  datatype HandshakeKey = HandshakeKey(hex: Bytes, key: Bytes)

  predicate IsHex(text: Bytes) {
    |text| == 32 && forall i :: 0 <= i < |text| ==> HexValue(text[i]).Some?
  }

  function AsciiLower(text: Bytes): Bytes {
    seq(|text|, i requires 0 <= i < |text| => if 65 <= text[i] <= 90 then text[i] + 32 else text[i])
  }

  function ByteAt(text: Bytes, i: nat): byte
    requires IsHex(text) && i < 16
  {
    (16 * HexValue(text[2 * i]).value + HexValue(text[2 * i + 1]).value) as byte
  }

  function FromHex(text: Bytes): Result<HandshakeKey> {
    if !IsHex(text) then Err(EncryptionError)
    else Ok(HandshakeKey(AsciiLower(text), BytesOf(text)))
  }

  function BytesOf(text: Bytes): Bytes
    requires IsHex(text)
  {
    seq(16, i requires 0 <= i < 16 => ByteAt(text, i))
  }

  method ReadHex(text: Bytes) returns (result: Result<HandshakeKey>)
    ensures result == FromHex(text)
  {
    if |text| != 32 || exists i :: 0 <= i < |text| && HexValue(text[i]).None? {
      return Err(EncryptionError);
    }
    var keyBytes := new byte[16](_ => 0);
    for index := 0 to 16
      invariant forall i :: 0 <= i < index ==> keyBytes[i] == ByteAt(text, i)
    {
      var chunk := text[2 * index..2 * index + 2];
      keyBytes[index] := (16 * HexValue(chunk[0]).value + HexValue(chunk[1]).value) as byte;
    }
    assert keyBytes[..] == BytesOf(text);
    result := Ok(HandshakeKey(AsciiLower(text), keyBytes[..]));
  }

  /** A lower-case hexadecimal digit, as key generation writes it. */
  function LowerDigit(n: int): byte
    requires 0 <= n < 16
  {
    if n < 10 then (48 + n) as byte else (87 + n) as byte
  }

  /** The text of freshly generated key bytes. */
  function WriteHex(key: Bytes): Bytes {
    seq(2 * |key|, i requires 0 <= i < 2 * |key| =>
      LowerDigit(if i % 2 == 0 then key[i / 2] as int / 16 else key[i / 2] as int % 16))
  }

  lemma LowerDigitOfValue(b: byte)
    requires HexValue(b).Some?
    ensures LowerDigit(HexValue(b).value) == AsciiLower([b])[0]
  {
  }

  lemma ValueOfLowerDigit(n: int)
    requires 0 <= n < 16
    ensures HexValue(LowerDigit(n)) == Some(n) && AsciiLower([LowerDigit(n)])[0] == LowerDigit(n)
  {
  }

  /** The half of a byte that position `i` of its text writes. */
  function Nibble(key: Bytes, i: nat): int
    requires i < 2 * |key|
  {
    if i % 2 == 0 then key[i / 2] as int / 16 else key[i / 2] as int % 16
  }

  lemma WrittenDigit(key: Bytes, i: nat)
    requires i < 2 * |key|
    ensures HexValue(WriteHex(key)[i]) == Some(Nibble(key, i)) && AsciiLower(WriteHex(key))[i] == WriteHex(key)[i]
  {
    ValueOfLowerDigit(Nibble(key, i));
  }

  lemma WrittenByte(key: Bytes, i: nat)
    requires |key| == 16 && i < 16 && IsHex(WriteHex(key))
    ensures ByteAt(WriteHex(key), i) == key[i]
  {
    WrittenDigit(key, 2 * i);
    WrittenDigit(key, 2 * i + 1);
  }

  lemma WrittenIsHex(key: Bytes)
    requires |key| == 16
    ensures IsHex(WriteHex(key)) && AsciiLower(WriteHex(key)) == WriteHex(key)
  {
    forall i | 0 <= i < 32 ensures HexValue(WriteHex(key)[i]).Some? && AsciiLower(WriteHex(key))[i] == WriteHex(key)[i] {
      WrittenDigit(key, i);
    }
  }

  /** Reading the text of a generated key gives back its bytes and the same text. */
  lemma GeneratedKeyRoundTrip(key: Bytes)
    requires |key| == 16
    ensures FromHex(WriteHex(key)) == Ok(HandshakeKey(WriteHex(key), key))
  {
    WrittenIsHex(key);
    var read := BytesOf(WriteHex(key));
    forall i | 0 <= i < 16 ensures read[i] == key[i] {
      WrittenByte(key, i);
    }
    assert read == key;
  }

  /** The stored text is the canonical writing of the bytes. */
  lemma StoredTextIsCanonical(text: Bytes)
    requires IsHex(text)
    ensures FromHex(text).value.hex == WriteHex(FromHex(text).value.key)
  {
    var read := FromHex(text).value;
    forall i | 0 <= i < 32 ensures read.hex[i] == WriteHex(read.key)[i] {
      var value := HexValue(text[i]).value;
      LowerDigitOfValue(text[i]);
      assert read.key[i / 2] == ByteAt(text, i / 2);
      assert i == 2 * (i / 2) + i % 2;
      NibblesOfByte(HexValue(text[2 * (i / 2)]).value, HexValue(text[2 * (i / 2) + 1]).value);
    }
  }

  lemma NibblesOfByte(high: int, low: int)
    requires 0 <= high < 16 && 0 <= low < 16
    ensures (16 * high + low) / 16 == high && (16 * high + low) % 16 == low
  {
  }

  /** Two keys that were read compare equal, by their texts, exactly when they
      are the same key. */
  lemma EqualTextsEqualKeys(a: Bytes, b: Bytes)
    requires IsHex(a) && IsHex(b)
    ensures FromHex(a).value.hex == FromHex(b).value.hex <==> FromHex(a).value.key == FromHex(b).value.key
  {
    StoredTextIsCanonical(a);
    StoredTextIsCanonical(b);
    var ka, kb := FromHex(a).value.key, FromHex(b).value.key;
    GeneratedKeyRoundTrip(ka);
    GeneratedKeyRoundTrip(kb);
  }
}
