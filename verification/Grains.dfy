/** The atomic handlers of `Signaling` and the split ones of `FineGrain` are the same code. */
module Grains {
  import opened Common
  import opened Wire
  import opened Signaling
  import opened FineGrain

  /** A task run to its end with nothing in between: the fields, what it
      published, what it left repeating and whether it ended. */
  datatype Solo = Solo(party: Party, sent: Option<Frame>, repeating: Option<Outgoing>, ended: bool)

  function RunAlone(me: Properties, p: Party, task: Task, ok: bool, steps: nat): Solo
    decreases steps
  {
    if task.Done? then Solo(p, None, None, true)
    else if steps == 0 then Solo(p, None, None, false)
    else
      var o := Execute(me, p, task.next, task.rest, ok);
      var later := RunAlone(me, o.party, o.rest, ok, steps - 1);
      later.(sent := if o.sent.Some? then o.sent else later.sent,
             repeating := if task.next.StartRepeating? then Some(task.next.out) else later.repeating)
  }

  /** End `e` of the atomic grain has the fields of `p`. */
  predicate SameFields(p: Party, e: End) {
    p.state == e.state && p.relyingKey == e.relyingKey && p.peerCapabilities == e.peerCapabilities
  }

  lemma FirstStep(me: Properties, p: Party, a: Action, rest: Task, ok: bool, steps: nat)
    requires steps > 0
    ensures var o := Execute(me, p, a, rest, ok);
            var later := RunAlone(me, o.party, o.rest, ok, steps - 1);
            RunAlone(me, p, Do(a, rest), ok, steps)
            == later.(sent := if o.sent.Some? then o.sent else later.sent,
                      repeating := if a.StartRepeating? then Some(a.out) else later.repeating)
  {
  }

  lemma EchoAlone(me: Properties, p: Party, o: Outgoing, rest: Task, ok: bool, steps: nat, e: End)
    requires SameFields(p, e) && steps >= 2
    ensures var solo, first := RunAlone(me, p, Do(Encrypt(o, true), rest), ok, steps), SendMessage(me, e, o, ok);
            if first.result.Err? then solo == Solo(p, None, None, true)
            else
              var later := RunAlone(me, p, rest, ok, steps - 2);
              first.sent.Some? && solo == later.(sent := first.sent)
  {
    FirstStep(me, p, Encrypt(o, true), rest, ok, steps);
    if Seal(me, p.relyingKey, o).Ok? {
      FirstStep(me, p, Publish(Seal(me, p.relyingKey, o).value, true), rest, ok, steps - 1);
    }
  }

  lemma SendAlone(me: Properties, p: Party, o: Outgoing, ok: bool, steps: nat, e: End)
    requires SameFields(p, e) && steps >= 3
    ensures var solo, atomic := RunAlone(me, p, RepeatingSend(o), ok, steps), SendRepeating(me, e, o, ok);
            && solo.ended && solo.party == p && solo.sent == atomic.sent && solo.repeating == atomic.end.repeating
  {
    EchoAlone(me, p, o, Do(StartRepeating(o), Done), ok, steps, e.(repeating := None));
    FirstStep(me, p, StartRepeating(o), Done, ok, steps - 2);
  }

  /** A task run alone did what the atomic `effect` on `e` does. When it started
      nothing repeating, the atomic end repeats nothing or what it did before. */
  predicate SameEffect(solo: Solo, e: End, effect: Effect) {
    && solo.ended && SameFields(solo.party, effect.end) && solo.sent == effect.sent
    && (if solo.repeating.Some? then effect.end.repeating == solo.repeating
        else effect.end.repeating.None? || effect.end.repeating == e.repeating)
  }

  /** The branch of a message, run alone, is the atomic handling of it. */
  predicate AtomicBranch(me: Properties, p: Party, f: Frame, m: Message, ok: bool, e: End) {
    SameEffect(RunAlone(me, p, Branch(me, p.state, f, m), ok, 5), e, HandleMessage(me, e, f, m, ok))
  }

  /** Storing a key, writing the state and sending, run alone. */
  lemma StoreKeyAlone(me: Properties, p: Party, key: Key, o: Outgoing, ok: bool, e: End)
    requires SameFields(p, e)
    ensures var solo := RunAlone(me, p, Do(StoreKey(key), Do(WriteState(HandshakePartial), RepeatingSend(o))), ok, 5);
            if p.relyingKey.Some? then solo == Solo(p, None, None, true)
            else
              var atomic := SendRepeating(me, SetState(StoreRelyingKey(e, key), HandshakePartial), o, ok);
              && solo.ended && SameFields(solo.party, atomic.end)
              && solo.sent == atomic.sent && solo.repeating == atomic.end.repeating
  {
    var rest := Do(WriteState(HandshakePartial), RepeatingSend(o));
    FirstStep(me, p, StoreKey(key), rest, ok, 5);
    if p.relyingKey.None? {
      var stored := p.(relyingKey := Some(key));
      FirstStep(me, stored, WriteState(HandshakePartial), RepeatingSend(o), ok, 4);
      SendAlone(me, stored.(state := HandshakePartial), o, ok, 3, SetState(StoreRelyingKey(e, key), HandshakePartial));
    }
  }

  /** Storing capabilities and writing `Encrypted`, then what is left. */
  lemma StoreCapsAlone(me: Properties, p: Party, c: PeerCapabilities, rest: Task, ok: bool, e: End) returns (p': Party)
    requires SameFields(p, e)
    ensures SameFields(p', SetState(StorePeerCapabilities(e, c), Encrypted))
    ensures RunAlone(me, p, Do(StoreCaps(c), Do(WriteState(Encrypted), rest)), ok, 5) == RunAlone(me, p', rest, ok, 3)
  {
    var stored := Execute(me, p, StoreCaps(c), Do(WriteState(Encrypted), rest), ok).party;
    FirstStep(me, p, StoreCaps(c), Do(WriteState(Encrypted), rest), ok, 5);
    FirstStep(me, stored, WriteState(Encrypted), rest, ok, 4);
    p' := stored.(state := Encrypted, reached := true);
  }

  lemma KeyBranchAlone(me: Properties, p: Party, f: Frame, m: Message, ok: bool, e: End)
    requires SameFields(p, e)
    requires m.Pubkey? && p.state == Handshake
    ensures AtomicBranch(me, p, f, m, ok, e)
  {
    var task := Branch(me, p.state, f, m);
    if task.Do? && task.next.StoreKey? {
      StoreKeyAlone(me, p, task.next.key, if me.isHost then CapabilitiesOut(me) else ClientKeyOut(me), ok, e);
    } else if task.Do? {
      FirstStep(me, p, task.next, task.rest, ok, 5);
    }
  }

  lemma CapabilitiesBranchAlone(me: Properties, p: Party, f: Frame, m: Message, ok: bool, e: End)
    requires SameFields(p, e)
    requires m.Capabilities? && f.prefix == EncryptedPrefix
    ensures AtomicBranch(me, p, f, m, ok, e)
  {
    var task := Branch(me, p.state, f, m);
    if p.state == HandshakePartial {
      var p' := StoreCapsAlone(me, p, m.capabilities, task.rest.rest, ok, e);
      if !me.isHost {
        EchoAlone(me, p', CapabilitiesOut(me), Done, ok, 3, SetState(StorePeerCapabilities(e, m.capabilities), Encrypted));
      }
    } else if task.Do? {
      EchoAlone(me, p, CapabilitiesOut(me), Done, ok, 5, e);
    }
  }

  lemma FlashBranchAlone(me: Properties, p: Party, f: Frame, m: Message, ok: bool, e: End)
    requires SameFields(p, e)
    requires m.Flash?
    ensures AtomicBranch(me, p, f, m, ok, e)
  {
    var task := Branch(me, p.state, f, m);
    if task.Do? {
      var p' := Execute(me, p, task.next, task.rest, ok).party;
      FirstStep(me, p, task.next, task.rest, ok, 5);
      FirstStep(me, p', StartDeadline, RepeatingSend(HostKeyOut(me)), ok, 4);
      SendAlone(me, p', HostKeyOut(me), ok, 3, SetState(e, Handshake).(deadline := true));
    }
  }

  lemma BranchAlone(me: Properties, p: Party, f: Frame, m: Message, ok: bool, e: End)
    requires SameFields(p, e)
    ensures AtomicBranch(me, p, f, m, ok, e)
  {
    if m.Flash? {
      FlashBranchAlone(me, p, f, m, ok, e);
    } else if m.Pubkey? && p.state == Handshake {
      KeyBranchAlone(me, p, f, m, ok, e);
    } else if m.Capabilities? && f.prefix == EncryptedPrefix {
      CapabilitiesBranchAlone(me, p, f, m, ok, e);
    }
  }

  /** A handler that nothing interrupts does exactly what the atomic handler does. */
  lemma UninterruptedHandlerIsAtomic(me: Properties, p: Party, f: Frame, ok: bool, e: End)
    requires SameFields(p, e)
    ensures SameEffect(RunAlone(me, p, Do(Decrypt(f), Done), ok, 7), e, HandleReceive(me, e, f, ok))
  {
    FirstStep(me, p, Decrypt(f), Done, ok, 7);
    if f.recipient == ForRole(me.isHost) && Open(me, p.relyingKey, f).Ok? {
      var m := Open(me, p.relyingKey, f).value;
      FirstStep(me, p, ReadState(f, m), Done, ok, 6);
      BranchAlone(me, p, f, m, ok, e);
    }
  }

  /** The same for the tail of `setup`. */
  lemma UninterruptedSetupIsAtomic(me: Properties, p: Party, ok: bool, e: End)
    requires SameFields(p, e)
    ensures SameEffect(RunAlone(me, p, Do(CheckCanEncrypt, Done), ok, 7), e, FinishSetup(me, e, ok))
  {
    var task := SetupBranch(me, p.relyingKey.Some?);
    var p' := p.(branched := true);
    FirstStep(me, p, CheckCanEncrypt, Done, ok, 7);
    FirstStep(me, p', task.next, task.rest, ok, 6);
    if p.relyingKey.None? && !me.isHost {
      var e1 := SetState(SetState(e, Ready), Handshake).(deadline := true);
      p' := p'.(state := Ready);
      FirstStep(me, p', WriteState(Handshake), task.rest.rest, ok, 5);
      p' := p'.(state := Handshake);
      FirstStep(me, p', StartDeadline, RepeatingSend(FlashOut()), ok, 4);
      SendAlone(me, p', FlashOut(), ok, 3, e1);
    }
  }

  /** And for a deadline. */
  lemma UninterruptedDeadlineIsAtomic(me: Properties, p: Party, ok: bool, e: End)
    requires SameFields(p, e) && e.deadline
    ensures SameEffect(RunAlone(me, p, Do(CheckDeadline, Done), ok, 2), e, Effect(DeadlineFires(e), None, Ok(())))
  {
    FirstStep(me, p, CheckDeadline, Done, ok, 2);
    if p.state != Encrypted {
      FirstStep(me, p, WriteState(Error), Done, ok, 1);
    }
  }
}
