/**
 The `openlv://` connection URL: printing and parsing, on the bytes of UTF-8 text.

 `Text` stands for what the standard library does to text: `lossy` decodes bytes
 to text, replacing what is not UTF-8, and `lower` is Unicode lower-casing.
 */
module ConnectionUrl {
  import opened Common
  import opened QueryCodec
  import opened HandshakeKeys

  datatype Text = Text(lossy: Bytes -> Bytes, lower: Bytes -> Bytes)

  const MQTT: Bytes := [109, 113, 116, 116]
  const NTFY: Bytes := [110, 116, 102, 121]

  predicate IsAscii(b: Bytes) {
    forall i :: 0 <= i < |b| ==> b[i] < 128
  }

  /** Decoding yields text and leaves text alone, ASCII is text, and lower-casing
      is done after one pass. */
  ghost predicate Laws(text: Text) {
    && (forall b :: text.lossy(text.lossy(b)) == text.lossy(b))
    && (forall b :: IsAscii(b) ==> text.lossy(b) == b)
    && (forall b :: text.lossy(text.lower(text.lossy(b))) == text.lower(text.lossy(b)))
    && (forall b :: text.lower(text.lower(b)) == text.lower(b))
    && text.lower(MQTT) == MQTT && text.lower(NTFY) == NTFY
  }

  /** The laws can be met: bytes taken as they are, with ASCII lower-casing. */
  lemma LawsAreConsistent()
    ensures Laws(Text(b => b, AsciiLower))
  {
    assert AsciiLower(MQTT) == MQTT && AsciiLower(NTFY) == NTFY;
    forall b: Bytes ensures AsciiLower(AsciiLower(b)) == AsciiLower(b) {
    }
  }

  datatype SignalingProtocol = Mqtt | Ntfy | Unsupported(name: Bytes)

  function ProtocolFrom(text: Text, value: Bytes): SignalingProtocol {
    var name := text.lower(value);
    if name == MQTT then Mqtt else if name == NTFY then Ntfy else Unsupported(name)
  }

  function ProtocolName(p: SignalingProtocol): Bytes {
    match p
    case Mqtt => MQTT
    case Ntfy => NTFY
    case Unsupported(name) => name
  }

  datatype SessionUri = SessionUri(
    sessionId: Bytes,
    keyHash: Bytes,
    sharedKey: HandshakeKey,
    protocol: SignalingProtocol,
    server: Bytes)

  // "openlv://"
  const PREFIX: Bytes := [111, 112, 101, 110, 108, 118, 58, 47, 47]
  const AT: byte := 64
  const QUESTION: byte := 63
  const VERSION: Bytes := [49]
  const H: Bytes := [104]
  const K: Bytes := [107]
  const P: Bytes := [112]
  const S: Bytes := [115]

  predicate IsSessionId(id: Bytes) {
    |id| == 16 && forall i :: 0 <= i < 16 ==> IsDigit(id[i]) || IsLetter(id[i]) || id[i] in {45, 95}
  }

  predicate IsLowerHex(text: Bytes, length: nat) {
    |text| == length && forall i :: 0 <= i < length ==> IsDigit(text[i]) || 97 <= text[i] <= 102
  }

  // ----- printing

  function QueryPairs(u: SessionUri): seq<(Bytes, Bytes)> {
    [(H, u.keyHash), (K, u.sharedKey.hex), (P, ProtocolName(u.protocol)), (S, u.server)]
  }

  function ToUrl(u: SessionUri): Bytes {
    PREFIX + u.sessionId + [AT] + VERSION + [QUESTION] + WritePairs(QueryPairs(u))
  }

  // ----- parsing

  /** Session id, version digits and query of the part after the prefix. */
  datatype Head = Head(sessionId: Bytes, version: Bytes, query: Bytes)

  function DigitRun(text: Bytes): (n: nat)
    ensures n <= |text|
  {
    if text == [] || !IsDigit(text[0]) then 0 else 1 + DigitRun(text[1..])
  }

  /** The pattern of the whole URL: sixteen id characters, `@`, digits, `?`, and a
      query that is not empty and holds no line break. */
  function ParseHead(url: Bytes): Option<Head> {
    if !(PREFIX <= url) || |url| < |PREFIX| + 17 then None
    else
      var id, rest := url[|PREFIX|..|PREFIX| + 16], url[|PREFIX| + 17..];
      var n := DigitRun(rest);
      if !IsSessionId(id) || url[|PREFIX| + 16] != AT || n == 0 || n == |rest| || rest[n] != QUESTION then None
      else if rest[n + 1..] == [] || NEWLINE in rest[n + 1..] then None
      else Some(Head(id, rest[..n], rest[n + 1..]))
  }

  function DecimalValue(digits: Bytes): int {
    if digits == [] then 0
    else 10 * DecimalValue(digits[..|digits| - 1]) + (digits[|digits| - 1] as int - 48)
  }

  /** The last value of a parameter, decoded to text. */
  function Param(text: Text, pairs: seq<(Bytes, Bytes)>, name: Bytes): Option<Bytes> {
    if pairs == [] then None
    else
      var last := pairs[|pairs| - 1];
      if text.lossy(last.0) == name then Some(text.lossy(last.1))
      else Param(text, pairs[..|pairs| - 1], name)
  }

  /** The value that an id and the pairs of a query stand for. */
  function FromPairs(text: Text, id: Bytes, pairs: seq<(Bytes, Bytes)>): Result<SessionUri> {
    var h, k := Param(text, pairs, H), Param(text, pairs, K);
    var p, s := Param(text, pairs, P), Param(text, pairs, S);
    if h.None? || !IsLowerHex(h.value, 16) then Err(InvalidUri)
    else if k.None? || !IsLowerHex(k.value, 32) then Err(InvalidUri)
    else
      var key := FromHex(k.value);
      if key.Err? then Err(key.error)
      else
        Ok(SessionUri(id, h.value, key.value,
                      if p.Some? then ProtocolFrom(text, p.value) else Mqtt,
                      if s.Some? then s.value else []))
  }

  function FromUrl(text: Text, url: Bytes): Result<SessionUri> {
    var head := ParseHead(url);
    if head.None? || DecimalValue(head.value.version) != 1 then Err(InvalidUri)
    else FromPairs(text, head.value.sessionId, Pairs(head.value.query))
  }

  // ----- round trips

  /** An unsupported protocol keeps its lower-cased name, which is neither supported one. */
  predicate IsNormal(text: Text, p: SignalingProtocol) {
    p.Unsupported? ==> text.lower(p.name) == p.name && p.name != MQTT && p.name != NTFY
  }

  /** A value that the rest of the program can build: checked id, hash and key,
      a protocol in normal form and any server text. */
  ghost predicate WellFormed(text: Text, u: SessionUri) {
    && IsSessionId(u.sessionId)
    && IsLowerHex(u.keyHash, 16)
    && IsLowerHex(u.sharedKey.hex, 32) && FromHex(u.sharedKey.hex) == Ok(u.sharedKey)
    && IsNormal(text, u.protocol)
    && text.lossy(ProtocolName(u.protocol)) == ProtocolName(u.protocol)
    && text.lossy(u.server) == u.server
  }

  /** Printing gives back its own head when parsed. */
  lemma HeadOfPrinted(u: SessionUri)
    requires IsSessionId(u.sessionId)
    ensures ParseHead(ToUrl(u)) == Some(Head(u.sessionId, VERSION, WritePairs(QueryPairs(u))))
  {
    WrittenHasNoNewline(QueryPairs(u));
    WrittenPairIsPlain(H, u.keyHash);
    HeadOfComposed(u.sessionId, VERSION, WritePairs(QueryPairs(u)));
  }

  lemma ParamsOfPrinted(text: Text, u: SessionUri)
    requires Laws(text)
    ensures var pairs := QueryPairs(u);
            && Param(text, pairs, H) == Some(text.lossy(u.keyHash))
            && Param(text, pairs, K) == Some(text.lossy(u.sharedKey.hex))
            && Param(text, pairs, P) == Some(text.lossy(ProtocolName(u.protocol)))
            && Param(text, pairs, S) == Some(text.lossy(u.server))
  {
    var pairs := QueryPairs(u);
    assert text.lossy(H) == H && text.lossy(K) == K && text.lossy(P) == P && text.lossy(S) == S;
    assert pairs[..3][..2] == pairs[..2] && pairs[..2][..1] == pairs[..1];
    assert Param(text, pairs[..1], H) == Some(text.lossy(u.keyHash));
    assert Param(text, pairs[..2], K) == Some(text.lossy(u.sharedKey.hex));
    assert Param(text, pairs[..2], H) == Param(text, pairs[..1], H);
    assert Param(text, pairs[..3], P) == Some(text.lossy(ProtocolName(u.protocol)));
  }

  /** Printing then parsing gives back every well-formed value. */
  lemma ParsePrinted(text: Text, u: SessionUri)
    requires Laws(text) && WellFormed(text, u)
    ensures FromUrl(text, ToUrl(u)) == Ok(u)
  {
    HeadOfPrinted(u);
    ParseWritten(QueryPairs(u));
    ParamsOfPrinted(text, u);
    assert IsAscii(u.keyHash) && IsAscii(u.sharedKey.hex);
    assert DecimalValue(VERSION) == 1 by {
      assert VERSION[..0] == [];
    }
  }

  lemma {:induction false} ParamIsText(text: Text, pairs: seq<(Bytes, Bytes)>, name: Bytes)
    requires Laws(text)
    ensures Param(text, pairs, name).Some? ==>
              text.lossy(Param(text, pairs, name).value) == Param(text, pairs, name).value
    decreases |pairs|
  {
    if pairs != [] {
      ParamIsText(text, pairs[..|pairs| - 1], name);
    }
  }

  /** Parsing accepts only well-formed values. */
  lemma AcceptedIsWellFormed(text: Text, url: Bytes)
    requires Laws(text) && FromUrl(text, url).Ok?
    ensures WellFormed(text, FromUrl(text, url).value)
  {
    var pairs := Pairs(ParseHead(url).value.query);
    ParamIsText(text, pairs, P);
    ParamIsText(text, pairs, S);
    var k := Param(text, pairs, K).value;
    assert AsciiLower(k) == k;
    assert IsAscii(MQTT) && IsAscii(NTFY) && IsAscii([]);
  }

  /** Printing what was parsed and parsing it again changes nothing, for every
      accepted URL. */
  lemma ReparseIsStable(text: Text, url: Bytes)
    requires Laws(text) && FromUrl(text, url).Ok?
    ensures FromUrl(text, ToUrl(FromUrl(text, url).value)) == FromUrl(text, url)
  {
    AcceptedIsWellFormed(text, url);
    ParsePrinted(text, FromUrl(text, url).value);
  }

  /** The printed URL parses back to the same value exactly when the value is
      well-formed. An id, say, that is not sixteen URL-safe characters is printed
      but not accepted again. */
  lemma RoundTripExact(text: Text, u: SessionUri)
    requires Laws(text)
    ensures FromUrl(text, ToUrl(u)) == Ok(u) <==> WellFormed(text, u)
  {
    if WellFormed(text, u) {
      ParsePrinted(text, u);
    }
    if FromUrl(text, ToUrl(u)) == Ok(u) {
      AcceptedIsWellFormed(text, ToUrl(u));
    }
  }

  // ----- which URLs are accepted

  function Compose(id: Bytes, digits: Bytes, query: Bytes): Bytes {
    PREFIX + id + [AT] + digits + [QUESTION] + query
  }

  predicate IsQuery(query: Bytes) {
    query != [] && NEWLINE !in query
  }

  predicate AllDigits(digits: Bytes) {
    forall i :: 0 <= i < |digits| ==> IsDigit(digits[i])
  }

  /** The decimal number one, with any number of zeros in front. */
  predicate IsOne(digits: Bytes) {
    && digits != [] && digits[|digits| - 1] == 49
    && forall i :: 0 <= i < |digits| - 1 ==> digits[i] == 48
  }

  lemma {:induction false} DecimalIsZero(digits: Bytes)
    requires AllDigits(digits)
    ensures DecimalValue(digits) >= 0
    ensures DecimalValue(digits) == 0 <==> forall i :: 0 <= i < |digits| ==> digits[i] == 48
    decreases |digits|
  {
    if digits != [] {
      DecimalIsZero(digits[..|digits| - 1]);
    }
  }

  lemma DecimalIsOne(digits: Bytes)
    requires AllDigits(digits)
    ensures DecimalValue(digits) == 1 <==> IsOne(digits)
  {
    if digits != [] {
      DecimalIsZero(digits[..|digits| - 1]);
      assert IsDigit(digits[|digits| - 1]);
    }
  }

  lemma {:induction false} DigitRunOf(digits: Bytes, rest: Bytes)
    requires AllDigits(digits) && (rest == [] || !IsDigit(rest[0]))
    ensures DigitRun(digits + rest) == |digits|
    decreases |digits|
  {
    if digits == [] {
      assert digits + rest == rest;
    } else {
      assert (digits + rest)[1..] == digits[1..] + rest;
      DigitRunOf(digits[1..], rest);
    }
  }

  lemma {:induction false} DigitRunIsDigits(text: Bytes)
    ensures AllDigits(text[..DigitRun(text)])
    decreases |text|
  {
    if text != [] && IsDigit(text[0]) {
      DigitRunIsDigits(text[1..]);
      assert text[..DigitRun(text)] == [text[0]] + text[1..][..DigitRun(text[1..])];
    }
  }

  lemma HeadOfComposed(id: Bytes, digits: Bytes, query: Bytes)
    requires IsSessionId(id) && digits != [] && AllDigits(digits) && IsQuery(query)
    ensures ParseHead(Compose(id, digits, query)) == Some(Head(id, digits, query))
  {
    var url, n := Compose(id, digits, query), |PREFIX|;
    assert url[n..n + 16] == id && url[n + 16] == AT;
    var rest := url[n + 17..];
    assert rest == digits + ([QUESTION] + query);
    DigitRunOf(digits, [QUESTION] + query);
    assert rest[..|digits|] == digits && rest[|digits|] == QUESTION && rest[|digits| + 1..] == query;
  }

  lemma ComposedOfHead(url: Bytes)
    requires ParseHead(url).Some?
    ensures var head := ParseHead(url).value;
            && url == Compose(head.sessionId, head.version, head.query)
            && IsSessionId(head.sessionId) && head.version != [] && AllDigits(head.version) && IsQuery(head.query)
  {
    var n, head := |PREFIX|, ParseHead(url).value;
    var rest := url[n + 17..];
    DigitRunIsDigits(rest);
    assert url == url[..n] + url[n..n + 16] + [url[n + 16]] + rest;
    assert rest == head.version + [QUESTION] + head.query;
    assert url == PREFIX + head.sessionId + [AT] + (head.version + [QUESTION] + head.query);
  }

  /** Only version one is accepted, however many zeros it is written with; any other
      number makes an otherwise valid URL an invalid one. */
  lemma VersionDecides(text: Text, id: Bytes, digits: Bytes, query: Bytes)
    requires IsSessionId(id) && digits != [] && AllDigits(digits) && IsQuery(query)
    ensures FromUrl(text, Compose(id, digits, query))
            == if IsOne(digits) then FromUrl(text, Compose(id, [49], query)) else Err(InvalidUri)
  {
    HeadOfComposed(id, digits, query);
    HeadOfComposed(id, [49], query);
    DecimalIsOne(digits);
    DecimalIsOne([49]);
  }

  /** Every accepted URL is the prefix, sixteen id characters, an at sign, the version
      one, a question mark and a query, and its id is the value's. */
  lemma AcceptedForm(text: Text, url: Bytes) returns (id: Bytes, digits: Bytes, query: Bytes)
    requires FromUrl(text, url).Ok?
    ensures url == Compose(id, digits, query) && IsSessionId(id) && IsOne(digits) && AllDigits(digits) && IsQuery(query)
    ensures FromUrl(text, url).value.sessionId == id
  {
    ComposedOfHead(url);
    var head := ParseHead(url).value;
    id, digits, query := head.sessionId, head.version, head.query;
    DecimalIsOne(digits);
  }

  /** Pair `i` is the last with that name. */
  ghost predicate IsLast(text: Text, pairs: seq<(Bytes, Bytes)>, name: Bytes, i: int) {
    && 0 <= i < |pairs| && text.lossy(pairs[i].0) == name
    && forall j :: i < j < |pairs| ==> text.lossy(pairs[j].0) != name
  }

  lemma {:induction false} ParamIsLast(text: Text, pairs: seq<(Bytes, Bytes)>, name: Bytes)
    ensures forall i :: IsLast(text, pairs, name, i) ==> Param(text, pairs, name) == Some(text.lossy(pairs[i].1))
    ensures Param(text, pairs, name).None? <==> forall i :: !IsLast(text, pairs, name, i)
    decreases |pairs|
  {
    if pairs != [] {
      var shorter, k := pairs[..|pairs| - 1], |pairs| - 1;
      ParamIsLast(text, shorter, name);
      if text.lossy(pairs[k].0) == name {
        assert IsLast(text, pairs, name, k);
      } else {
        assert forall i :: IsLast(text, pairs, name, i) <==> IsLast(text, shorter, name, i);
      }
    }
  }

  lemma WrittenQuery(text: Text, id: Bytes, pairs: seq<(Bytes, Bytes)>)
    requires IsSessionId(id) && pairs != []
    ensures FromUrl(text, Compose(id, [49], WritePairs(pairs))) == FromPairs(text, id, pairs)
  {
    WrittenHasNoNewline(pairs);
    ParseWritten(pairs);
    WrittenPairIsPlain(pairs[0].0, pairs[0].1);
    HeadOfComposed(id, [49], WritePairs(pairs));
    DecimalIsOne([49]);
  }

  lemma PairsDecide(text: Text, id: Bytes, pairs: seq<(Bytes, Bytes)>)
    ensures var parsed := FromPairs(text, id, pairs);
            var (h, k, p, s) := (Param(text, pairs, H), Param(text, pairs, K), Param(text, pairs, P), Param(text, pairs, S));
            && (parsed.Ok? <==> h.Some? && IsLowerHex(h.value, 16) && k.Some? && IsLowerHex(k.value, 32))
            && (parsed.Ok? ==>
                  && parsed.value.sessionId == id && parsed.value.keyHash == h.value && parsed.value.sharedKey.hex == k.value
                  && parsed.value.protocol == (if p.Some? then ProtocolFrom(text, p.value) else Mqtt)
                  && parsed.value.server == (if s.Some? then s.value else []))
  {
    var k := Param(text, pairs, K);
    if k.Some? && IsLowerHex(k.value, 32) {
      assert AsciiLower(k.value) == k.value;
    }
  }

  /** What a query of any pairs, in any order, is parsed to: `h` and `k` have to be there
      and well-formed, of a repeated name the last pair counts, a missing protocol is
      mqtt and a missing server empty. */
  lemma QueryDecides(text: Text, id: Bytes, pairs: seq<(Bytes, Bytes)>)
    requires Laws(text) && IsSessionId(id) && pairs != []
    ensures var parsed := FromUrl(text, Compose(id, [49], WritePairs(pairs)));
            && (parsed.Ok? <==>
                  && (exists i :: IsLast(text, pairs, H, i) && IsLowerHex(text.lossy(pairs[i].1), 16))
                  && (exists i :: IsLast(text, pairs, K, i) && IsLowerHex(text.lossy(pairs[i].1), 32)))
            && (parsed.Ok? ==>
                  && parsed.value.sessionId == id
                  && (forall i :: IsLast(text, pairs, H, i) ==> parsed.value.keyHash == text.lossy(pairs[i].1))
                  && (forall i :: IsLast(text, pairs, K, i) ==> parsed.value.sharedKey.hex == text.lossy(pairs[i].1))
                  && (forall i :: IsLast(text, pairs, P, i) ==> parsed.value.protocol == ProtocolFrom(text, text.lossy(pairs[i].1)))
                  && ((forall i :: !IsLast(text, pairs, P, i)) ==> parsed.value.protocol == Mqtt)
                  && (forall i :: IsLast(text, pairs, S, i) ==> parsed.value.server == text.lossy(pairs[i].1))
                  && ((forall i :: !IsLast(text, pairs, S, i)) ==> parsed.value.server == []))
  {
    WrittenQuery(text, id, pairs);
    PairsDecide(text, id, pairs);
    ParamIsLast(text, pairs, H);
    ParamIsLast(text, pairs, K);
    ParamIsLast(text, pairs, P);
    ParamIsLast(text, pairs, S);
  }

  /** The protocols: upper and lower case alike, everything else by its own name. */
  lemma ProtocolsAreNamed(text: Text, value: Bytes)
    requires Laws(text)
    ensures ProtocolFrom(text, value) == Mqtt <==> text.lower(value) == MQTT
    ensures ProtocolFrom(text, value) == Ntfy <==> text.lower(value) == NTFY
    ensures ProtocolName(ProtocolFrom(text, value)) == text.lower(value)
  {
  }

  lemma WriteFour(a: (Bytes, Bytes), b: (Bytes, Bytes), c: (Bytes, Bytes), d: (Bytes, Bytes))
    ensures WritePairs([a, b, c, d])
            == WritePair(a.0, a.1) + [38] + (WritePair(b.0, b.1) + [38] + (WritePair(c.0, c.1) + [38] + WritePair(d.0, d.1)))
  {
    assert [a, b, c, d][1..] == [b, c, d] && [b, c, d][1..] == [c, d] && [c, d][1..] == [d];
    assert WritePairs([d]) == WritePair(d.0, d.1);
    assert WritePairs([c, d]) == WritePair(c.0, c.1) + [38] + WritePairs([d]);
    assert WritePairs([b, c, d]) == WritePair(b.0, b.1) + [38] + WritePairs([c, d]);
  }

  /** One pair as it is printed: the letter of the name, an equals sign and the value. */
  lemma PrintedPair(name: byte, value: Bytes)
    requires IsUnreserved(name)
    ensures WritePair([name], value) == [name, 61] + Encode(value)
  {
    PlainIsKept([name]);
    assert [name] + [61] == [name, 61];
  }

  /** The printed form, character by character:
      `openlv://<id>@1?h=<hash>&k=<key>&p=<protocol>&s=<server>`. */
  lemma PrintedForm(text: Text, u: SessionUri)
    requires WellFormed(text, u)
    ensures ToUrl(u) == [111, 112, 101, 110, 108, 118, 58, 47, 47] + u.sessionId + [64] + [49] + [63]
                        + (([104, 61] + u.keyHash) + [38] + (([107, 61] + u.sharedKey.hex) + [38]
                        + (([112, 61] + Encode(ProtocolName(u.protocol))) + [38] + ([115, 61] + Encode(u.server)))))
  {
    PlainIsKept(u.keyHash);
    PlainIsKept(u.sharedKey.hex);
    PrintedPair(104, u.keyHash);
    PrintedPair(107, u.sharedKey.hex);
    PrintedPair(112, ProtocolName(u.protocol));
    PrintedPair(115, u.server);
    WriteFour((H, u.keyHash), (K, u.sharedKey.hex), (P, ProtocolName(u.protocol)), (S, u.server));
  }
}
