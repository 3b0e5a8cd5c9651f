/** The two-character header of every signaling frame, on ASCII payloads. */
module Wire {
  import opened Common

  datatype WirePrefix = HandshakePrefix | EncryptedPrefix

  datatype WireRecipient = Host | Client

  datatype WireFrame = WireFrame(prefix: WirePrefix, recipient: WireRecipient, ciphertext: string)

  function PrefixChar(prefix: WirePrefix): char {
    match prefix
    case HandshakePrefix => 'h'
    case EncryptedPrefix => 'x'
  }

  function RecipientChar(recipient: WireRecipient): char {
    match recipient
    case Host => 'h'
    case Client => 'c'
  }

  function RecipientFromChar(value: char): Option<WireRecipient> {
    match value
    case 'h' => Some(Host)
    case 'c' => Some(Client)
    case _ => None
  }

  function ForRole(isHost: bool): WireRecipient {
    if isHost then Host else Client
  }

  function ComposeFrame(prefix: WirePrefix, recipient: WireRecipient, ciphertext: string): string {
    [PrefixChar(prefix), RecipientChar(recipient)] + ciphertext
  }

  function ParseFrame(payload: string): Result<WireFrame> {
    if |payload| < 2 then Err(WireFrameError)
    else
      var prefix :=
        match payload[0]
        case 'h' => Some(HandshakePrefix)
        case 'x' => Some(EncryptedPrefix)
        case _ => None;
      var recipient := RecipientFromChar(payload[1]);
      if prefix.None? || recipient.None? then Err(WireFrameError)
      else Ok(WireFrame(prefix.value, recipient.value, payload[2..]))
  }

  predicate IsRecipient(frame: WireFrame, isHost: bool) {
    frame.recipient == ForRole(isHost)
  }

  /** Parsing and composing are inverse to each other: a payload parses to a
      frame exactly when it is that frame's composition. */
  lemma FrameRoundTrip(payload: string, frame: WireFrame)
    ensures ParseFrame(payload) == Ok(frame)
       <==> payload == ComposeFrame(frame.prefix, frame.recipient, frame.ciphertext)
  {
    var composed := ComposeFrame(frame.prefix, frame.recipient, frame.ciphertext);
    assert composed[2..] == frame.ciphertext;
    if ParseFrame(payload) == Ok(frame) {
      assert payload == [payload[0], payload[1]] + payload[2..];
    }
  }

  /** Every composed frame is read by exactly one role. */
  lemma ExactlyOneRoleReads(prefix: WirePrefix, recipient: WireRecipient, ciphertext: string)
    ensures ParseFrame(ComposeFrame(prefix, recipient, ciphertext)).Ok?
    ensures var frame := ParseFrame(ComposeFrame(prefix, recipient, ciphertext)).value;
            IsRecipient(frame, true) != IsRecipient(frame, false)
  {
    FrameRoundTrip(ComposeFrame(prefix, recipient, ciphertext), WireFrame(prefix, recipient, ciphertext));
  }

  /** The headers on the wire: `h` or `x` for the prefix, then `h` or `c` for the recipient. */
  lemma HeaderOf(prefix: WirePrefix, recipient: WireRecipient, ciphertext: string)
    ensures var frame := ComposeFrame(prefix, recipient, ciphertext);
            && |frame| == 2 + |ciphertext| && frame[2..] == ciphertext
            && (frame[0] == 'h' <==> prefix == HandshakePrefix) && (frame[0] == 'x' <==> prefix == EncryptedPrefix)
            && (frame[1] == 'h' <==> recipient == Host) && (frame[1] == 'c' <==> recipient == Client)
            && (IsRecipient(WireFrame(prefix, recipient, ciphertext), true) <==> recipient == Host)
  {
  }
}
