/**
 The byte layout of peer payloads: who can open one, and whom it names as sender.

 The primitives are parameters with stated laws. `dh` is `None` where the shared
 secret would be all zero.
 */
module PeerCrypto {
  import opened Common
  import opened Wire

  datatype Suite = Suite(
    publicKey: Bytes -> Key,
    dh: (Bytes, Key) -> Option<Bytes>,
    kdf: (Bytes, Bytes) -> Bytes,
    seal: (Bytes, Bytes, Bytes) -> Bytes,
    unseal: (Bytes, Bytes, Bytes) -> Option<Bytes>,
    toBase64: Bytes -> string,
    fromBase64: string -> Option<Bytes>,
    isText: Bytes -> bool)

  const PUBLIC_KEY_BYTES := 32
  const NONCE_BYTES := 12

  // "openlv/1 peer-key"
  const KEY_INFO: Bytes := [111, 112, 101, 110, 108, 118, 47, 49, 32, 112, 101, 101, 114, 45, 107, 101, 121]

  /** Diffie-Hellman symmetry, correctness and key separation of the cipher, a key
      derivation that separates its contexts, and base64 that can be undone. */
  ghost predicate Laws(suite: Suite) {
    && (forall s :: |suite.publicKey(s)| == PUBLIC_KEY_BYTES)
    && (forall a, b :: suite.dh(a, suite.publicKey(b)) == suite.dh(b, suite.publicKey(a)))
    && (forall k, n, p :: suite.unseal(k, n, suite.seal(k, n, p)) == Some(p) && suite.seal(k, n, p) != [])
    && (forall k, k', n, p :: k != k' ==> suite.unseal(k', n, suite.seal(k, n, p)) == None)
    && (forall s, s', i, i' :: suite.kdf(s, i) == suite.kdf(s', i') ==> i == i')
    && (forall b :: suite.fromBase64(suite.toBase64(b)) == Some(b) && (suite.toBase64(b) == "" ==> b == []))
  }

  function Info(sender: Key, receiver: Key): Bytes {
    KEY_INFO + sender + receiver
  }

  function Cipher(suite: Suite, secret: Bytes, peer: Key, info: Bytes): Result<Bytes> {
    if |peer| != PUBLIC_KEY_BYTES then Err(EncryptionError)
    else
      match suite.dh(secret, peer)
      case None => Err(EncryptionError)
      case Some(shared) => Ok(suite.kdf(shared, info))
  }

  /** `nonce` is the random value drawn for this message. */
  function Encrypt(suite: Suite, secret: Bytes, nonce: Bytes, message: Bytes, peer: Key): Result<string> {
    var me := suite.publicKey(secret);
    match Cipher(suite, secret, peer, Info(me, peer))
    case Err(error) => Err(error)
    case Ok(key) => Ok(suite.toBase64(me + nonce + suite.seal(key, nonce, message)))
  }

  method EncryptPayload(suite: Suite, secret: Bytes, nonce: Bytes, message: Bytes, peer: Key) returns (result: Result<string>)
    ensures result == Encrypt(suite, secret, nonce, message, peer)
  {
    var publicKey := suite.publicKey(secret);
    var cipher := Cipher(suite, secret, peer, Info(publicKey, peer));
    if cipher.Err? {
      return Err(cipher.error);
    }
    var ciphertext := suite.seal(cipher.value, nonce, message);
    var payload: Bytes := [];
    payload := payload + publicKey;
    payload := payload + nonce;
    payload := payload + ciphertext;
    assert payload == publicKey + nonce + ciphertext;
    return Ok(suite.toBase64(payload));
  }

  function Decrypt(suite: Suite, secret: Bytes, text: string, peer: Option<Key>): Result<Bytes> {
    if text == "" then Err(EncryptionError)
    else
      var decoded := suite.fromBase64(text);
      if decoded.None? || |decoded.value| <= PUBLIC_KEY_BYTES + NONCE_BYTES then Err(EncryptionError)
      else
        var bytes := decoded.value;
        var sender, nonce := bytes[..PUBLIC_KEY_BYTES], bytes[PUBLIC_KEY_BYTES..PUBLIC_KEY_BYTES + NONCE_BYTES];
        if peer.Some? && peer.value != sender then Err(EncryptionError)
        else
          match Cipher(suite, secret, sender, Info(sender, suite.publicKey(secret)))
          case Err(error) => Err(error)
          case Ok(key) =>
            var plain := suite.unseal(key, nonce, bytes[PUBLIC_KEY_BYTES + NONCE_BYTES..]);
            if plain.None? || !suite.isText(plain.value) then Err(EncryptionError) else Ok(plain.value)
  }

  /** The sender that a payload names, without opening it. */
  function SenderOf(suite: Suite, text: string): Result<Key> {
    var decoded := suite.fromBase64(text);
    if decoded.None? || |decoded.value| < PUBLIC_KEY_BYTES then Err(EncryptionError)
    else Ok(decoded.value[..PUBLIC_KEY_BYTES])
  }

  lemma InfoIsInjective(s: Key, r: Key, s': Key, r': Key)
    requires |s| == |s'| && |r| == |r'| && Info(s, r) == Info(s', r')
    ensures s == s' && r == r'
  {
    var n, m := |KEY_INFO|, |s|;
    assert Info(s, r)[n..n + m] == s && Info(s, r)[n + m..] == r;
    assert Info(s', r')[n..n + m] == s' && Info(s', r')[n + m..] == r';
  }

  /** A payload takes apart into what it was put together from. */
  lemma Layout(suite: Suite, me: Key, nonce: Bytes, ciphertext: Bytes)
    requires Laws(suite) && |me| == PUBLIC_KEY_BYTES && |nonce| == NONCE_BYTES && ciphertext != []
    ensures var text := suite.toBase64(me + nonce + ciphertext);
            && text != "" && suite.fromBase64(text) == Some(me + nonce + ciphertext)
            && |me + nonce + ciphertext| > PUBLIC_KEY_BYTES + NONCE_BYTES
    ensures var bytes := me + nonce + ciphertext;
            && bytes[..PUBLIC_KEY_BYTES] == me
            && bytes[PUBLIC_KEY_BYTES..PUBLIC_KEY_BYTES + NONCE_BYTES] == nonce
            && bytes[PUBLIC_KEY_BYTES + NONCE_BYTES..] == ciphertext
  {
  }

  /** A payload from `a` to `b` opens for exactly the holders of `b`'s public key
      that expect `a` or nobody in particular, and yields the message; anybody
      can read off that `a` sent it. In particular it does not open when it is
      reflected to `a`. */
  lemma PayloadOpensForAddresseeOnly(suite: Suite, a: Bytes, b: Bytes, c: Bytes, nonce: Bytes, message: Bytes, expected: Option<Key>)
    requires Laws(suite) && |nonce| == NONCE_BYTES
    requires Encrypt(suite, a, nonce, message, suite.publicKey(b)).Ok?
    ensures var text := Encrypt(suite, a, nonce, message, suite.publicKey(b)).value;
            && SenderOf(suite, text) == Ok(suite.publicKey(a))
            && Decrypt(suite, c, text, expected)
               == if suite.publicKey(c) == suite.publicKey(b) && (expected.None? || expected.value == suite.publicKey(a))
                     && suite.isText(message)
                  then Ok(message) else Err(EncryptionError)
  {
    var A, B, C := suite.publicKey(a), suite.publicKey(b), suite.publicKey(c);
    var shared := suite.dh(a, B).value;
    var key := suite.kdf(shared, Info(A, B));
    Layout(suite, A, nonce, suite.seal(key, nonce, message));
    assert suite.dh(b, A) == suite.dh(a, B);
    assert suite.dh(c, A) == suite.dh(a, C);
    var opening := Cipher(suite, c, A, Info(A, C));
    if C != B {
      if opening.Ok? && opening.value == key {
        InfoIsInjective(A, B, A, C);
      }
    }
  }

  /** A payload is the sender's key, the nonce and the ciphertext, in that order, under a
      key derived for `openlv/1 peer-key`, the sender and the receiver, in that
      order. */
  lemma PayloadLayout(suite: Suite, secret: Bytes, nonce: Bytes, message: Bytes, peer: Key)
    requires Laws(suite) && Encrypt(suite, secret, nonce, message, peer).Ok?
    ensures var me := suite.publicKey(secret);
            var prefix := [111, 112, 101, 110, 108, 118, 47, 49, 32, 112, 101, 101, 114, 45, 107, 101, 121];
            suite.fromBase64(Encrypt(suite, secret, nonce, message, peer).value)
            == Some(me + nonce + suite.seal(suite.kdf(suite.dh(secret, peer).value, prefix + me + peer), nonce, message))
  {
  }

  /** Encrypting succeeds exactly for a 32-byte key with which the secret can be shared. */
  lemma EncryptSucceedsExactly(suite: Suite, secret: Bytes, nonce: Bytes, message: Bytes, peer: Key)
    ensures Encrypt(suite, secret, nonce, message, peer).Ok? <==> |peer| == 32 && suite.dh(secret, peer).Some?
    ensures Encrypt(suite, secret, nonce, message, peer).Err? ==> Encrypt(suite, secret, nonce, message, peer) == Err(EncryptionError)
  {
  }

  /** What no end opens: text that is no base64, a payload without a whole key, nonce and
      some ciphertext, one from another than the expected peer, one under a key that
      cannot be shared, and one whose plaintext is no text. The sender can be read off
      as soon as the key is whole. */
  lemma MalformedIsRefused(suite: Suite, secret: Bytes, payload: string, expected: Option<Key>)
    ensures suite.fromBase64(payload).None? ==> Decrypt(suite, secret, payload, expected) == Err(EncryptionError)
    ensures suite.fromBase64(payload).Some? ==>
              var bytes := suite.fromBase64(payload).value;
              && (|bytes| <= 44 ==> Decrypt(suite, secret, payload, expected) == Err(EncryptionError))
              && (|bytes| > 44 && (suite.dh(secret, bytes[..32]).None? || (expected.Some? && expected.value != bytes[..32])) ==>
                    Decrypt(suite, secret, payload, expected) == Err(EncryptionError))
              && (SenderOf(suite, payload).Ok? <==> |bytes| >= 32)
              && (|bytes| >= 32 ==> SenderOf(suite, payload).value == bytes[..32])
    ensures Decrypt(suite, secret, payload, expected).Ok? ==> suite.isText(Decrypt(suite, secret, payload, expected).value)
  {
  }

  /** What one end makes of a frame from the topic: nothing if it is not for its
      role, else the opened message or an error. */
  function ReceiveFrame(suite: Suite, secret: Bytes, isHost: bool, payload: string, expected: Option<Key>): Option<Result<Bytes>> {
    match ParseFrame(payload)
    case Err(error) => Some(Err(error))
    case Ok(frame) =>
      if !IsRecipient(frame, isHost) then None
      else Some(Decrypt(suite, secret, frame.ciphertext, expected))
  }

  /** The whole way over the topic: composed, parsed, filtered by role and opened. */
  lemma FrameReachesAddressee(suite: Suite, a: Bytes, b: Bytes, nonce: Bytes, message: Bytes, recipient: WireRecipient,
                              isHost: bool, expected: Option<Key>)
    requires Laws(suite) && |nonce| == NONCE_BYTES && suite.isText(message)
    requires Encrypt(suite, a, nonce, message, suite.publicKey(b)).Ok?
    ensures var text := Encrypt(suite, a, nonce, message, suite.publicKey(b)).value;
            var received := ReceiveFrame(suite, b, isHost, ComposeFrame(EncryptedPrefix, recipient, text), expected);
            if recipient != ForRole(isHost) then received == None
            else if expected.Some? && expected.value != suite.publicKey(a) then received == Some(Err(EncryptionError))
            else received == Some(Ok(message))
  {
    var text := Encrypt(suite, a, nonce, message, suite.publicKey(b)).value;
    FrameRoundTrip(ComposeFrame(EncryptedPrefix, recipient, text), WireFrame(EncryptedPrefix, recipient, text));
    PayloadOpensForAddresseeOnly(suite, a, b, b, nonce, message, expected);
  }

  // ----- the laws can be met

  /** A key as a prefix that no other key's prefix begins with. */
  function Tag(key: Bytes): Bytes {
    seq(|key|, _ => 1) + [0] + key
  }

  lemma TagsArePrefixFree(k: Bytes, k': Bytes, rest: Bytes)
    requires Tag(k') <= Tag(k) + rest
    ensures k == k'
  {
    var whole := Tag(k) + rest;
    assert whole[|k|] == 0 && forall i :: 0 <= i < |k| ==> whole[i] == 1;
    assert Tag(k')[|k'|] == 0 && forall i :: 0 <= i < |k'| ==> Tag(k')[i] == 1;
    assert forall i :: 0 <= i < |Tag(k')| ==> whole[i] == Tag(k')[i];
    assert |k| == |k'|;
    assert whole[|k| + 1..2 * |k| + 1] == k && Tag(k')[|k| + 1..2 * |k| + 1] == k';
  }

  function ToyUnseal(key: Bytes, sealed: Bytes): Option<Bytes> {
    if Tag(key) <= sealed then Some(sealed[|Tag(key)|..]) else None
  }

  function ToyText(bytes: Bytes): string {
    seq(|bytes|, i requires 0 <= i < |bytes| => bytes[i] as char)
  }

  function ToyBytes(text: string): Option<Bytes> {
    if forall i :: 0 <= i < |text| ==> text[i] as int < 256
    then Some(seq(|text|, i requires 0 <= i < |text| && text[i] as int < 256 => text[i] as int as byte)) else None
  }

  lemma ToyTextRoundTrip(bytes: Bytes)
    ensures ToyBytes(ToyText(bytes)) == Some(bytes)
  {
    var text := ToyText(bytes);
    assert forall i :: 0 <= i < |text| ==> text[i] as int == bytes[i] as int;
    assert ToyBytes(text).value == bytes;
  }

  /** A secret's public key is the secret itself, cut or filled to its length. */
  function ToyPublicKey(secret: Bytes): (key: Key)
    ensures |key| == PUBLIC_KEY_BYTES
  {
    seq(PUBLIC_KEY_BYTES, i requires 0 <= i => if i < |secret| then secret[i] else 0)
  }

  function Sum(a: byte, b: byte): byte {
    ((a as int + b as int) % 256) as byte
  }

  function ToyDh(secret: Bytes, peer: Key): Option<Bytes> {
    var key := ToyPublicKey(secret);
    if |peer| != PUBLIC_KEY_BYTES then None
    else Some(seq(PUBLIC_KEY_BYTES, i requires 0 <= i < PUBLIC_KEY_BYTES => Sum(key[i], peer[i])))
  }

  lemma ToyDhIsSymmetric(a: Bytes, b: Bytes)
    ensures ToyDh(a, ToyPublicKey(b)) == ToyDh(b, ToyPublicKey(a))
  {
    var ab, ba := ToyDh(a, ToyPublicKey(b)).value, ToyDh(b, ToyPublicKey(a)).value;
    var A, B := ToyPublicKey(a), ToyPublicKey(b);
    forall i | 0 <= i < PUBLIC_KEY_BYTES ensures ab[i] == ba[i] {
      assert ab[i] == Sum(A[i], B[i]) && ba[i] == Sum(B[i], A[i]);
    }
    assert ab == ba;
  }

  const TOY_SUITE := Suite(
    s => ToyPublicKey(s), (s, p) => ToyDh(s, p), (s, i) => i,
    (k, n, p) => Tag(k) + p, (k, n, c) => ToyUnseal(k, c), ToyText, ToyBytes, b => true)

  lemma LawsAreConsistent()
    ensures Laws(TOY_SUITE)
  {
    forall k, k', p: Bytes
      ensures ToyUnseal(k, Tag(k) + p) == Some(p) && (k != k' ==> ToyUnseal(k', Tag(k) + p) == None)
    {
      if Tag(k') <= Tag(k) + p {
        TagsArePrefixFree(k, k', p);
      }
    }
    forall a, b ensures ToyDh(a, ToyPublicKey(b)) == ToyDh(b, ToyPublicKey(a)) {
      ToyDhIsSymmetric(a, b);
    }
    forall b: Bytes ensures ToyBytes(ToyText(b)) == Some(b) && (ToyText(b) == "" ==> b == []) {
      ToyTextRoundTrip(b);
    }
  }
}
