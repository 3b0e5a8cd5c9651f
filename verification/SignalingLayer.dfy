/**
 The handshake machine as the object it is: locked fields that each method
 updates step by step. Every method is proved against the function of
 `Signaling` of the same name. `accepts` is the channel's answer to a publish.
 */
module SignalingLayer {
  import opened Common
  import opened Wire
  import opened Signaling

  class SignalingInner {
    const properties: Properties
    var state: SignalState
    var relyingKey: Option<Key>
    var peerCapabilities: Option<PeerCapabilities>
    var handshakeTask: Option<Outgoing>
    var deadlineTask: bool
    var stateTx: seq<SignalState>
    var messageTx: seq<Payload>
    var channel: seq<Frame>

    constructor (properties: Properties)
      ensures this.properties == properties && View() == NEW_END && channel == []
    {
      this.properties := properties;
      state, relyingKey, peerCapabilities := Standby, None, None;
      handshakeTask, deadlineTask := None, false;
      stateTx, messageTx, channel := [], [], [];
    }

    function View(): End
      reads this
    {
      End(state, relyingKey, peerCapabilities, handshakeTask, deadlineTask, stateTx, messageTx)
    }

    /** The step from the old state is `effect`, and the channel got its frame. */
    twostate predicate Took(effect: Effect)
      reads this
    {
      && View() == effect.end
      && channel == old(channel) + (if effect.sent.Some? then [effect.sent.value] else [])
    }

    method StopRepeating()
      modifies this`handshakeTask
      ensures View() == old(View()).(repeating := None)
    {
      handshakeTask := None;
    }

    method StopHandshakeTasks()
      modifies this`handshakeTask, this`deadlineTask
      ensures View() == Signaling.StopHandshakeTasks(old(View()))
    {
      StopRepeating();
      deadlineTask := false;
    }

    method SetState(newState: SignalState)
      modifies this
      ensures View() == Signaling.SetState(old(View()), newState) && channel == old(channel)
    {
      state := newState;
      if newState == Encrypted || newState == Error {
        StopHandshakeTasks();
      }
      stateTx := stateTx + [newState];
    }

    /** The channel's own teardown is left out. */
    method Teardown()
      modifies this`handshakeTask, this`deadlineTask
      ensures View() == Signaling.StopHandshakeTasks(old(View())) && channel == old(channel)
    {
      StopHandshakeTasks();
    }

    method StartHandshakeDeadline()
      modifies this`deadlineTask
      ensures View() == old(View()).(deadline := true)
    {
      if deadlineTask {
        return;
      }
      deadlineTask := true;
    }

    method SendMessage(o: Outgoing, accepts: bool) returns (result: Result<()>)
      modifies this`channel
      ensures Took(Signaling.SendMessage(properties, old(View()), o, accepts))
      ensures result == Signaling.SendMessage(properties, old(View()), o, accepts).result
    {
      var frame: Frame;
      match o.prefix {
        case HandshakePrefix =>
          if properties.secret.None? {
            return Err(SignalingError);
          }
          frame := Frame(HandshakePrefix, o.recipient, Shared(properties.secret.value, o.message));
        case EncryptedPrefix =>
          if relyingKey.None? {
            return Err(SignalingError);
          }
          frame := Frame(EncryptedPrefix, o.recipient, Peer(properties.key, relyingKey.value, o.message));
      }
      if !accepts {
        return Err(SignalingError);
      }
      channel := channel + [frame];
      return Ok(());
    }

    method SendRepeating(o: Outgoing, accepts: bool) returns (result: Result<()>)
      modifies this`handshakeTask, this`channel
      ensures Took(Signaling.SendRepeating(properties, old(View()), o, accepts))
      ensures result == Signaling.SendRepeating(properties, old(View()), o, accepts).result
    {
      StopRepeating();
      result := SendMessage(o, accepts);
      if result.Err? {
        return;
      }
      handshakeTask := Some(o);
    }

    method StoreRelyingKey(key: Key) returns (stored: bool)
      modifies this`relyingKey
      ensures View() == Signaling.StoreRelyingKey(old(View()), key)
      ensures stored == old(relyingKey).None?
    {
      if relyingKey.Some? {
        return false;
      }
      relyingKey := Some(key);
      return true;
    }

    method StorePeerCapabilities(capabilities: PeerCapabilities)
      modifies this`peerCapabilities
      ensures View() == Signaling.StorePeerCapabilities(old(View()), capabilities)
    {
      if peerCapabilities.None? {
        peerCapabilities := Some(capabilities);
      }
    }

    /** The body of `setup` up to the channel, whose outcome is `channelUp`, then its tail. */
    method Setup(channelUp: bool, accepts: bool) returns (result: Result<()>)
      modifies this
      ensures !channelUp ==> View() == BeginSetup(old(View())) && channel == old(channel) && result.Err?
      ensures channelUp ==>
                && Took(FinishSetup(properties, BeginSetup(old(View())), accepts))
                && result == FinishSetup(properties, BeginSetup(old(View())), accepts).result
    {
      SetState(Connecting);
      if !channelUp {
        return Err(SignalingError);
      }
      result := Ok(());
      if relyingKey.Some? {
        SetState(Encrypted);
      } else if properties.isHost {
        SetState(Ready);
      } else {
        SetState(Ready);
        SetState(Handshake);
        StartHandshakeDeadline();
        result := SendRepeating(FlashOut(), accepts);
      }
    }

    method HandleReceive(f: Frame, accepts: bool) returns (result: Result<()>)
      modifies this
      ensures Took(Signaling.HandleReceive(properties, old(View()), f, accepts))
      ensures result == Signaling.HandleReceive(properties, old(View()), f, accepts).result
    {
      if f.recipient != ForRole(properties.isHost) {
        return Ok(());
      }
      var plain := Open(properties, relyingKey, f);
      if plain.Err? {
        return Err(plain.error);
      }
      result := Ok(());
      if plain.value.Undecodable? {
        return Err(Other);
      }
      match (f.prefix, plain.value, state, properties.isHost) {
        case (HandshakePrefix, Flash, Ready, true) =>
          result := OnFlash(accepts);
        case (HandshakePrefix, Pubkey(announced), Handshake, false) =>
          result := OnHostKey(announced, accepts);
        case (EncryptedPrefix, Pubkey(announced), Handshake, true) =>
          result := OnClientKey(f, announced, accepts);
        case (EncryptedPrefix, Capabilities(capabilities), HandshakePartial, _) =>
          result := OnCapabilities(capabilities, accepts);
        case (EncryptedPrefix, Capabilities(_), Encrypted, false) =>
          result := SendMessage(CapabilitiesOut(properties), accepts);
        case (EncryptedPrefix, Data(payload), Encrypted, _) =>
          messageTx := messageTx + [payload];
        case _ =>
      }
    }

    method OnFlash(accepts: bool) returns (result: Result<()>)
      requires state == Ready && properties.isHost
      modifies this
      ensures forall f: Frame :: f.prefix == HandshakePrefix ==>
                var effect := HandleMessage(properties, old(View()), f, Flash, accepts);
                Took(effect) && result == effect.result
    {
      SetState(Handshake);
      StartHandshakeDeadline();
      result := SendRepeating(HostKeyOut(properties), accepts);
    }

    method OnCapabilities(capabilities: PeerCapabilities, accepts: bool) returns (result: Result<()>)
      requires state == HandshakePartial
      modifies this
      ensures forall f: Frame :: f.prefix == EncryptedPrefix ==>
                var effect := HandleMessage(properties, old(View()), f, Capabilities(capabilities), accepts);
                Took(effect) && result == effect.result
    {
      StorePeerCapabilities(capabilities);
      SetState(Encrypted);
      result := Ok(());
      if !properties.isHost {
        result := SendMessage(CapabilitiesOut(properties), accepts);
      }
    }

    method OnHostKey(announced: Option<Key>, accepts: bool) returns (result: Result<()>)
      requires state == Handshake && !properties.isHost
      modifies this
      ensures forall f: Frame :: f.prefix == HandshakePrefix ==>
                var effect := HandleMessage(properties, old(View()), f, Pubkey(announced), accepts);
                Took(effect) && result == effect.result
    {
      if announced.None? {
        return Err(EncryptionError);
      }
      if properties.hash(announced.value) != properties.h {
        SetState(Error);
        return Ok(());
      }
      var stored := StoreRelyingKey(announced.value);
      if !stored {
        return Ok(());
      }
      SetState(HandshakePartial);
      result := SendRepeating(ClientKeyOut(properties), accepts);
    }

    method OnClientKey(f: Frame, announced: Option<Key>, accepts: bool) returns (result: Result<()>)
      requires state == Handshake && properties.isHost && f.prefix == EncryptedPrefix
      modifies this
      ensures var effect := HandleMessage(properties, old(View()), f, Pubkey(announced), accepts);
              Took(effect) && result == effect.result
    {
      if announced.None? {
        return Err(EncryptionError);
      }
      if !f.sealed.Peer? || f.sealed.sender != announced.value {
        return Ok(());
      }
      var stored := StoreRelyingKey(announced.value);
      if !stored {
        return Ok(());
      }
      SetState(HandshakePartial);
      result := SendRepeating(CapabilitiesOut(properties), accepts);
    }

    /** One pass of the repeating task's loop; a failed resend is only logged. */
    method Tick(accepts: bool)
      modifies this`channel
      ensures Took(Signaling.Tick(properties, old(View()), accepts))
    {
      if handshakeTask.Some? {
        var ignored := SendMessage(handshakeTask.value, accepts);
      }
    }

    method DeadlineFires()
      modifies this
      ensures Took(Effect(Signaling.DeadlineFires(old(View())), None, Ok(())))
    {
      if deadlineTask && state != Encrypted {
        SetState(Error);
      }
    }

    method Send(payload: Payload, accepts: bool) returns (result: Result<()>)
      modifies this`channel
      ensures Took(SendData(properties, old(View()), payload, accepts))
      ensures result == SendData(properties, old(View()), payload, accepts).result
    {
      if relyingKey.None? {
        return Err(SignalingError);
      }
      result := SendMessage(DataOut(properties, payload), accepts);
    }
  }
}
