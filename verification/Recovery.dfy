/**
 One host and one client on a topic that may lose, repeat and reorder frames and
 refuse any publish, with atomic handlers: exactly while both ends keep their
 handshake message repeating, a few retransmissions that arrive complete the
 handshake.
 */
module Recovery {
  import opened Common
  import opened Wire
  import opened Signaling
  import Runs

  datatype Pair = Pair(host: Node, client: Node, net: set<Frame>)

  datatype Step = Step(atHost: bool, event: Event)

  /** A host and a client that share one URL. */
  predicate Partners(hp: Properties, cp: Properties) {
    && hp.isHost && !cp.isHost && hp.key != cp.key
    && hp.secret.Some? && cp.secret == hp.secret
    && cp.hash(hp.key) == cp.h
  }

  const NEW_PAIR := Pair(NEW_NODE, NEW_NODE, {})

  function Actor(w: Pair, atHost: bool): Node {
    if atHost then w.host else w.client
  }

  /** Any publish may succeed or be refused. Neither end is torn down. */
  predicate CanStep(w: Pair, s: Step) {
    && !s.event.Teardown? && Enabled(Actor(w, s.atHost), s.event)
    && (s.event.Receive? ==> s.event.frame in w.net)
  }

  function Perform(hp: Properties, cp: Properties, w: Pair, s: Step): Pair {
    var (n, sent) := Apply(if s.atHost then hp else cp, Actor(w, s.atHost), s.event);
    var net := if sent.Some? then w.net + {sent.value} else w.net;
    if s.atHost then Pair(n, w.client, net) else Pair(w.host, n, net)
  }

  ghost predicate Next(hp: Properties, cp: Properties, w: Pair, w': Pair) {
    exists s :: CanStep(w, s) && Perform(hp, cp, w, s) == w'
  }

  ghost function NextOf(hp: Properties, cp: Properties): (Pair, Pair) -> bool {
    (w, w') => Next(hp, cp, w, w')
  }

  ghost predicate IsRun(hp: Properties, cp: Properties, run: seq<Pair>) {
    Runs.IsRun(NEW_PAIR, NextOf(hp, cp), run)
  }

  // ----- the joint invariant

  /** If end `e` is in state `s`, it keeps that state's message repeating. */
  predicate Repeating(e: End, s: SignalState) {
    e.state == s ==> e.repeating.Some?
  }

  /** A handshake state keeps its message in flight. */
  predicate Resends(e: End) {
    Repeating(e, Handshake) && Repeating(e, HandshakePartial)
  }

  predicate Flashed(client: End) {
    Rank(client.state) >= 3 && Repeating(client, Handshake)
  }

  predicate HostAnnounced(host: End) {
    Rank(host.state) >= 3 && Repeating(host, Handshake)
  }

  predicate ClientAnnounced(client: End) {
    client.relyingKey.Some? && Repeating(client, HandshakePartial)
  }

  predicate HostAdvertised(host: End) {
    host.relyingKey.Some? && Repeating(host, HandshakePartial)
  }

  /** What a published frame says, and how far its sender had got to publish it. */
  predicate FrameOk(hp: Properties, cp: Properties, host: End, client: End, f: Frame) {
    match f.sealed
    case Shared(secret, m) =>
      Some(secret) == hp.secret && ((m == Flash && Flashed(client)) || (m == Pubkey(Some(hp.key)) && HostAnnounced(host)))
    case Peer(s, r, m) =>
      if s == hp.key then
        && r == cp.key && host.relyingKey.Some?
        && (m.Data? || (m == Capabilities(hp.capabilities) && HostAdvertised(host)))
      else
        && s == cp.key && r == hp.key && client.relyingKey.Some?
        && (m.Data? || (m == Pubkey(Some(cp.key)) && ClientAnnounced(client))
            || (m == Capabilities(cp.capabilities) && client.state == Encrypted))
  }

  predicate EndOk(me: Properties, n: Node, peer: Key) {
    && NodeInv(me, n) && !n.tornDown
    && (n.end.relyingKey.Some? ==> n.end.relyingKey.value == peer)
    && (!me.isHost ==> n.end.state != Ready)
  }

  /** How the two ends can stand to each other: each got where it is by a message
      that the other published. */
  predicate Together(host: End, client: End) {
    && (Rank(host.state) >= 3 ==> Flashed(client))
    && (client.relyingKey.Some? ==> HostAnnounced(host))
    && (host.relyingKey.Some? ==> ClientAnnounced(client))
    && (client.state == Encrypted ==> HostAdvertised(host))
    && (host.state == Encrypted ==> client.state == Encrypted)
  }

  ghost predicate Inv(hp: Properties, cp: Properties, w: Pair) {
    && Partners(hp, cp)
    && EndOk(hp, w.host, cp.key) && EndOk(cp, w.client, hp.key)
    && Together(w.host.end, w.client.end)
    && forall f :: f in w.net ==> FrameOk(hp, cp, w.host.end, w.client.end, f)
  }

  /** From one moment to a later one, an end evolves and does not stop repeating
      within a state. */
  predicate Continues(e: End, e': End) {
    Evolves(e, e') && (e'.state == e.state && e.repeating.Some? ==> e'.repeating.Some?)
  }

  /** One end's step keeps its own part, whatever it received is allowed to say. */
  lemma HostKeepsPeer(hp: Properties, cp: Properties, w: Pair, s: Step)
    requires Inv(hp, cp, w) && CanStep(w, s) && s.atHost
    requires s.event.Receive? ==> FrameOk(hp, cp, w.host.end, w.client.end, s.event.frame)
    ensures var n' := Perform(hp, cp, w, s).host;
            && (n'.end.relyingKey.Some? ==> n'.end.relyingKey.value == cp.key)
            && (n'.end.state == w.host.end.state && w.host.end.repeating.Some? ==> n'.end.repeating.Some?)
  {
  }

  lemma HostStaysTogether(hp: Properties, cp: Properties, w: Pair, s: Step)
    requires Inv(hp, cp, w) && CanStep(w, s) && s.atHost
    requires s.event.Receive? ==> FrameOk(hp, cp, w.host.end, w.client.end, s.event.frame)
    ensures Together(Perform(hp, cp, w, s).host.end, w.client.end)
  {
  }

  lemma ClientKeepsPeer(hp: Properties, cp: Properties, w: Pair, s: Step)
    requires Inv(hp, cp, w) && CanStep(w, s) && !s.atHost
    requires s.event.Receive? ==> FrameOk(hp, cp, w.host.end, w.client.end, s.event.frame)
    ensures var n' := Perform(hp, cp, w, s).client;
            && (n'.end.relyingKey.Some? ==> n'.end.relyingKey.value == hp.key)
            && n'.end.state != Ready
            && (n'.end.state == w.client.end.state && w.client.end.repeating.Some? ==> n'.end.repeating.Some?)
  {
  }

  lemma ClientStaysTogether(hp: Properties, cp: Properties, w: Pair, s: Step)
    requires Inv(hp, cp, w) && CanStep(w, s) && !s.atHost
    requires s.event.Receive? ==> FrameOk(hp, cp, w.host.end, w.client.end, s.event.frame)
    ensures Together(w.host.end, Perform(hp, cp, w, s).client.end)
  {
  }

  /** The sending end of a step is where its frame says it is. */
  lemma SentByHostOk(hp: Properties, cp: Properties, w: Pair, s: Step)
    requires Inv(hp, cp, w) && CanStep(w, s) && s.atHost
    requires s.event.Receive? ==> FrameOk(hp, cp, w.host.end, w.client.end, s.event.frame)
    ensures var (n', sent) := Apply(hp, w.host, s.event);
            sent.Some? ==> FrameOk(hp, cp, n'.end, w.client.end, sent.value)
  {
  }

  lemma SentByClientOk(hp: Properties, cp: Properties, w: Pair, s: Step)
    requires Inv(hp, cp, w) && CanStep(w, s) && !s.atHost
    requires s.event.Receive? ==> FrameOk(hp, cp, w.host.end, w.client.end, s.event.frame)
    ensures var (n', sent) := Apply(cp, w.client, s.event);
            sent.Some? ==> FrameOk(hp, cp, w.host.end, n'.end, sent.value)
  {
  }

  lemma StepKeepsEnds(hp: Properties, cp: Properties, w: Pair, s: Step)
    requires Inv(hp, cp, w) && CanStep(w, s)
    ensures var w' := Perform(hp, cp, w, s);
            && EndOk(hp, w'.host, cp.key) && EndOk(cp, w'.client, hp.key)
            && Together(w'.host.end, w'.client.end)
            && Continues(w.host.end, w'.host.end) && Continues(w.client.end, w'.client.end)
            && forall f :: f in w'.net && f !in w.net ==> FrameOk(hp, cp, w'.host.end, w'.client.end, f)
  {
    var me := if s.atHost then hp else cp;
    NodeInvPreserved(me, Actor(w, s.atHost), s.event);
    EventEvolves(me, Actor(w, s.atHost), s.event);
    if s.atHost {
      HostKeepsPeer(hp, cp, w, s);
      HostStaysTogether(hp, cp, w, s);
      SentByHostOk(hp, cp, w, s);
    } else {
      ClientKeepsPeer(hp, cp, w, s);
      ClientStaysTogether(hp, cp, w, s);
      SentByClientOk(hp, cp, w, s);
    }
  }

  lemma FrameStaysOk(hp: Properties, cp: Properties, host: End, client: End, host': End, client': End, f: Frame)
    requires FrameOk(hp, cp, host, client, f) && Continues(host, host') && Continues(client, client')
    requires Bookkeeping(hp, host) && Bookkeeping(cp, client)
    ensures FrameOk(hp, cp, host', client', f)
  {
  }

  lemma StepKeepsInv(hp: Properties, cp: Properties, w: Pair, s: Step)
    requires Inv(hp, cp, w) && CanStep(w, s)
    ensures var w' := Perform(hp, cp, w, s);
            Inv(hp, cp, w') && Continues(w.host.end, w'.host.end) && Continues(w.client.end, w'.client.end)
  {
    var w' := Perform(hp, cp, w, s);
    StepKeepsEnds(hp, cp, w, s);
    forall f | f in w'.net ensures FrameOk(hp, cp, w'.host.end, w'.client.end, f) {
      if f in w.net {
        FrameStaysOk(hp, cp, w.host.end, w.client.end, w'.host.end, w'.client.end, f);
      }
    }
  }

  lemma RunInvariant(hp: Properties, cp: Properties, run: seq<Pair>, n: nat)
    requires Partners(hp, cp) && IsRun(hp, cp, run) && n < |run|
    ensures Inv(hp, cp, run[n])
  {
    forall w, w' | Inv(hp, cp, w) && Next(hp, cp, w, w') ensures Inv(hp, cp, w') {
      var s :| CanStep(w, s) && Perform(hp, cp, w, s) == w';
      StepKeepsInv(hp, cp, w, s);
    }
    Runs.InvariantHolds(NEW_PAIR, NextOf(hp, cp), w => Inv(hp, cp, w), run, n);
  }

  // ----- progress

  /** Both ends finished `setup`, and neither has failed. */
  predicate Live(w: Pair) {
    Rank(w.host.end.state) >= 2 && Rank(w.client.end.state) >= 2
    && w.host.end.state != Error && w.client.end.state != Error
  }

  predicate Complete(w: Pair) {
    w.host.end.state == Encrypted && w.client.end.state == Encrypted
  }

  /** How many states the two ends have still to climb. */
  function JointRank(w: Pair): nat {
    (5 - Rank(w.host.end.state)) + (5 - Rank(w.client.end.state))
  }

  /** No step but a deadline makes an end fail, and no step undoes progress. */
  lemma OnlyTheDeadlineFails(hp: Properties, cp: Properties, w: Pair, s: Step)
    requires Inv(hp, cp, w) && Live(w) && CanStep(w, s) && !s.event.DeadlineElapses?
    ensures Live(Perform(hp, cp, w, s)) && JointRank(Perform(hp, cp, w, s)) <= JointRank(w)
  {
    StepKeepsInv(hp, cp, w, s);
  }

  function Run(hp: Properties, cp: Properties, w: Pair, steps: seq<Step>): Pair
    decreases |steps|
  {
    if steps == [] then w else Run(hp, cp, Perform(hp, cp, w, steps[0]), steps[1..])
  }

  /** Every step of the schedule is possible when its turn comes. */
  predicate CanRun(hp: Properties, cp: Properties, w: Pair, steps: seq<Step>)
    decreases |steps|
  {
    steps != [] ==> CanStep(w, steps[0]) && CanRun(hp, cp, Perform(hp, cp, w, steps[0]), steps[1..])
  }

  lemma {:induction false} RunConcat(hp: Properties, cp: Properties, w: Pair, first: seq<Step>, second: seq<Step>)
    requires CanRun(hp, cp, w, first) && CanRun(hp, cp, Run(hp, cp, w, first), second)
    ensures CanRun(hp, cp, w, first + second)
    ensures Run(hp, cp, w, first + second) == Run(hp, cp, Run(hp, cp, w, first), second)
    decreases |first|
  {
    if first == [] {
      assert first + second == second;
    } else {
      RunConcat(hp, cp, Perform(hp, cp, w, first[0]), first[1..], second);
      assert (first + second)[1..] == first[1..] + second;
    }
  }

  /** A retransmission by one end that arrives at the other. */
  lemma Exchange(hp: Properties, cp: Properties, w: Pair, fromHost: bool) returns (steps: seq<Step>, w': Pair)
    requires Inv(hp, cp, w) && Actor(w, fromHost).end.repeating.Some?
    ensures var (me, you) := if fromHost then (hp, cp) else (cp, hp);
            var sender, receiver := Actor(w, fromHost).end, Actor(w, !fromHost).end;
            var sealed := Seal(me, sender.relyingKey, sender.repeating.value);
            && sealed.Ok?
            && |steps| == 2 && steps == [Step(fromHost, Resend(true)), Step(!fromHost, Receive(sealed.value, true))]
            && CanRun(hp, cp, w, steps) && Run(hp, cp, w, steps) == w' && Inv(hp, cp, w')
            && Actor(w', fromHost) == Actor(w, fromHost)
            && Actor(w', !fromHost).end == HandleReceive(you, receiver, sealed.value, true).end
            && (var answer := HandleReceive(you, receiver, sealed.value, true).sent;
                answer.Some? ==> answer.value in w'.net)
  {
    var (me, n) := if fromHost then (hp, w.host) else (cp, w.client);
    var frame := Seal(me, n.end.relyingKey, n.end.repeating.value).value;
    steps := [Step(fromHost, Resend(true)), Step(!fromHost, Receive(frame, true))];
    var w1 := Perform(hp, cp, w, steps[0]);
    StepKeepsInv(hp, cp, w, steps[0]);
    w' := Perform(hp, cp, w1, steps[1]);
    StepKeepsInv(hp, cp, w1, steps[1]);
    assert steps[1..] == [steps[1]] && steps[1..][1..] == [];
    assert CanRun(hp, cp, w', []) && Run(hp, cp, w', []) == w';
  }

  /** Both ends keep their handshake message repeating. */
  predicate BothResend(w: Pair) {
    Resends(w.host.end) && Resends(w.client.end)
  }

  /** Handling a frame with an accepted publish does not end the repeating. */
  lemma AcceptedKeepsResending(me: Properties, e: End, f: Frame)
    requires Resends(e) && me.secret.Some?
    ensures Resends(HandleReceive(me, e, f, true).end)
  {
  }

  /** A level pair: the host's retransmission moves the client up. */
  lemma HostMovesClient(hp: Properties, cp: Properties, w: Pair)
    requires Inv(hp, cp, w) && Resends(w.host.end)
    requires w.host.end.state == w.client.end.state && w.host.end.state in {Handshake, HandshakePartial}
    ensures w.host.end.repeating.Some? && Seal(hp, w.host.end.relyingKey, w.host.end.repeating.value).Ok?
    ensures var f := Seal(hp, w.host.end.relyingKey, w.host.end.repeating.value).value;
            HandleReceive(cp, w.client.end, f, true).end.state
            == (if w.host.end.state == Handshake then HandshakePartial else Encrypted)
  {
  }

  /** A host that is behind: the client's retransmission moves it up. */
  lemma ClientMovesHost(hp: Properties, cp: Properties, w: Pair)
    requires Inv(hp, cp, w) && Resends(w.client.end)
    requires (w.host.end.state, w.client.end.state) in {(Ready, Handshake), (Handshake, HandshakePartial)}
    ensures w.client.end.repeating.Some? && Seal(cp, w.client.end.relyingKey, w.client.end.repeating.value).Ok?
    ensures var f := Seal(cp, w.client.end.relyingKey, w.client.end.repeating.value).value;
            HandleReceive(hp, w.host.end, f, true).end.state == w.client.end.state
  {
  }

  /** While the client is not encrypted, the retransmission of the host when the
      two are level, and of the client otherwise, moves the other end up. */
  lemma RoundBeforeClient(hp: Properties, cp: Properties, w: Pair) returns (steps: seq<Step>, w': Pair)
    requires Inv(hp, cp, w) && Live(w) && BothResend(w) && w.client.end.state != Encrypted
    ensures forall s :: s in steps ==> s.event.Resend? || s.event.Receive?
    ensures |steps| == 2 && CanRun(hp, cp, w, steps) && Run(hp, cp, w, steps) == w'
    ensures Inv(hp, cp, w') && Live(w') && BothResend(w') && JointRank(w') < JointRank(w)
  {
    var level := w.host.end.state == w.client.end.state;
    if level {
      HostMovesClient(hp, cp, w);
    } else {
      ClientMovesHost(hp, cp, w);
    }
    steps, w' := Exchange(hp, cp, w, level);
    AcceptedKeepsResending(if level then cp else hp, Actor(w, !level).end, steps[1].event.frame);
  }

  /** When only the host's completion was lost, its retransmission makes the
      encrypted client echo, and the echo completes the host. */
  lemma RoundAfterClient(hp: Properties, cp: Properties, w: Pair) returns (steps: seq<Step>, w': Pair)
    requires Inv(hp, cp, w) && Live(w) && BothResend(w)
    requires w.client.end.state == Encrypted && w.host.end.state != Encrypted
    ensures forall s :: s in steps ==> s.event.Resend? || s.event.Receive?
    ensures |steps| == 3 && CanRun(hp, cp, w, steps) && Run(hp, cp, w, steps) == w'
    ensures Inv(hp, cp, w') && Complete(w')
  {
    var w1: Pair;
    steps, w1 := Exchange(hp, cp, w, true);
    var echo := Seal(cp, w.client.end.relyingKey, CapabilitiesOut(cp)).value;
    var last := Step(true, Receive(echo, true));
    w' := Perform(hp, cp, w1, last);
    StepKeepsInv(hp, cp, w1, last);
    assert [last][1..] == [] && CanRun(hp, cp, w', []) && Run(hp, cp, w', []) == w';
    assert CanRun(hp, cp, w1, [last]) && Run(hp, cp, w1, [last]) == w';
    RunConcat(hp, cp, w, steps, [last]);
    steps := steps + [last];
  }

  lemma {:induction false} Completes(hp: Properties, cp: Properties, w: Pair) returns (steps: seq<Step>)
    requires Inv(hp, cp, w) && Live(w) && BothResend(w)
    ensures |steps| <= 2 * JointRank(w) + 1
    ensures forall s :: s in steps ==> s.event.Resend? || s.event.Receive?
    ensures CanRun(hp, cp, w, steps) && Complete(Run(hp, cp, w, steps))
    decreases JointRank(w)
  {
    if w.client.end.state != Encrypted {
      var first, w' := RoundBeforeClient(hp, cp, w);
      var rest := Completes(hp, cp, w');
      RunConcat(hp, cp, w, first, rest);
      steps := first + rest;
    } else if w.host.end.state != Encrypted {
      var w';
      steps, w' := RoundAfterClient(hp, cp, w);
    } else {
      steps := [];
    }
  }

  /** Recovery from loss: from every reachable state after both setups with
      neither end failed and both still resending, at most eleven
      retransmissions and deliveries bring both ends to `Encrypted`. */
  lemma RecoveryFromLoss(hp: Properties, cp: Properties, run: seq<Pair>, n: nat) returns (steps: seq<Step>)
    requires Partners(hp, cp) && IsRun(hp, cp, run) && n < |run| && Live(run[n]) && BothResend(run[n])
    ensures |steps| <= 2 * JointRank(run[n]) + 1 <= 11
    ensures CanRun(hp, cp, run[n], steps) && Complete(Run(hp, cp, run[n], steps))
    ensures forall s :: s in steps ==> s.event.Resend? || s.event.Receive?
  {
    RunInvariant(hp, cp, run, n);
    steps := Completes(hp, cp, run[n]);
  }

  // ----- payloads over signaling

  /** In every reachable complete pair, in both directions: what a send publishes makes
      the other end deliver exactly that payload, after those before it, and changes
      nothing else at either end. */
  lemma PayloadArrives(hp: Properties, cp: Properties, run: seq<Pair>, n: nat, fromHost: bool, payload: Payload, published: bool)
    requires Partners(hp, cp) && IsRun(hp, cp, run) && n < |run| && Complete(run[n])
    ensures var (me, you) := if fromHost then (hp, cp) else (cp, hp);
            var e, e' := Actor(run[n], fromHost).end, Actor(run[n], !fromHost).end;
            var r := SendData(me, e, payload, true);
            && r.end == e && r.result == Ok(()) && r.sent.Some?
            && HandleReceive(you, e', r.sent.value, published) == Effect(e'.(delivered := e'.delivered + [payload]), None, Ok(()))
  {
    RunInvariant(hp, cp, run, n);
  }

  function Payloads(fromHost: bool, payloads: seq<Payload>): seq<Step> {
    seq(|payloads|, k requires 0 <= k < |payloads| => Step(fromHost, SendPayload(payloads[k], true)))
  }

  function Deliveries(hp: Properties, cp: Properties, fromHost: bool, payloads: seq<Payload>): seq<Step> {
    seq(|payloads|, k requires 0 <= k < |payloads| =>
      Step(!fromHost, Receive(PayloadFrame(hp, cp, fromHost, payloads[k]), true)))
  }

  /** The receiver of some payloads, after them. */
  function Delivered(w: Pair, toHost: bool, payloads: seq<Payload>): Pair {
    var n := Actor(w, toHost);
    var n' := n.(end := n.end.(delivered := n.end.delivered + payloads));
    if toHost then w.(host := n') else w.(client := n')
  }

  function PayloadFrame(hp: Properties, cp: Properties, fromHost: bool, payload: Payload): Frame {
    if fromHost then Frame(EncryptedPrefix, Client, Peer(hp.key, cp.key, Data(payload)))
    else Frame(EncryptedPrefix, Host, Peer(cp.key, hp.key, Data(payload)))
  }

  lemma SendsOne(hp: Properties, cp: Properties, w: Pair, fromHost: bool, payload: Payload)
    requires Inv(hp, cp, w) && Complete(w)
    ensures var s := Step(fromHost, SendPayload(payload, true));
            && CanStep(w, s) && Perform(hp, cp, w, s) == w.(net := w.net + {PayloadFrame(hp, cp, fromHost, payload)})
            && Inv(hp, cp, Perform(hp, cp, w, s))
  {
    StepKeepsInv(hp, cp, w, Step(fromHost, SendPayload(payload, true)));
  }

  lemma DeliversOne(hp: Properties, cp: Properties, w: Pair, fromHost: bool, payload: Payload)
    requires Inv(hp, cp, w) && Complete(w) && PayloadFrame(hp, cp, fromHost, payload) in w.net
    ensures var s := Step(!fromHost, Receive(PayloadFrame(hp, cp, fromHost, payload), true));
            && CanStep(w, s) && Perform(hp, cp, w, s) == Delivered(w, !fromHost, [payload])
            && Inv(hp, cp, Perform(hp, cp, w, s))
  {
    StepKeepsInv(hp, cp, w, Step(!fromHost, Receive(PayloadFrame(hp, cp, fromHost, payload), true)));
  }

  predicate AllPublished(hp: Properties, cp: Properties, net: set<Frame>, fromHost: bool, payloads: seq<Payload>) {
    forall p :: p in payloads ==> PayloadFrame(hp, cp, fromHost, p) in net
  }

  lemma {:induction false} SendsAll(hp: Properties, cp: Properties, w: Pair, fromHost: bool, payloads: seq<Payload>)
    requires Inv(hp, cp, w) && Complete(w)
    ensures var steps := Payloads(fromHost, payloads);
            var w' := Run(hp, cp, w, steps);
            && CanRun(hp, cp, w, steps) && Inv(hp, cp, w') && w' == w.(net := w'.net)
            && AllPublished(hp, cp, w'.net, fromHost, payloads) && w.net <= w'.net
    decreases |payloads|
  {
    var steps := Payloads(fromHost, payloads);
    if payloads != [] {
      SendsOne(hp, cp, w, fromHost, payloads[0]);
      var w1 := Perform(hp, cp, w, steps[0]);
      SendsAll(hp, cp, w1, fromHost, payloads[1..]);
      assert steps[1..] == Payloads(fromHost, payloads[1..]);
      assert payloads == [payloads[0]] + payloads[1..];
    }
  }

  lemma {:induction false} DeliversAll(hp: Properties, cp: Properties, w: Pair, fromHost: bool, payloads: seq<Payload>)
    requires Inv(hp, cp, w) && Complete(w) && AllPublished(hp, cp, w.net, fromHost, payloads)
    ensures var steps := Deliveries(hp, cp, fromHost, payloads);
            CanRun(hp, cp, w, steps) && Run(hp, cp, w, steps) == Delivered(w, !fromHost, payloads)
    decreases |payloads|
  {
    var steps, before := Deliveries(hp, cp, fromHost, payloads), Actor(w, !fromHost).end.delivered;
    if payloads == [] {
      assert before + [] == before;
    } else {
      DeliversOne(hp, cp, w, fromHost, payloads[0]);
      var w1 := Perform(hp, cp, w, steps[0]);
      assert steps[1..] == Deliveries(hp, cp, fromHost, payloads[1..]);
      DeliversAll(hp, cp, w1, fromHost, payloads[1..]);
      assert before + [payloads[0]] + payloads[1..] == before + payloads;
    }
  }

  /** Any payloads sent one after the other and delivered in that order arrive in that
      order, and nothing else changes at either end. */
  lemma PayloadsArriveInOrder(hp: Properties, cp: Properties, run: seq<Pair>, n: nat, fromHost: bool, payloads: seq<Payload>)
    requires Partners(hp, cp) && IsRun(hp, cp, run) && n < |run| && Complete(run[n])
    ensures var steps := Payloads(fromHost, payloads) + Deliveries(hp, cp, fromHost, payloads);
            && CanRun(hp, cp, run[n], steps)
            && (var w' := Run(hp, cp, run[n], steps);
                w' == Delivered(run[n], !fromHost, payloads).(net := w'.net))
  {
    RunInvariant(hp, cp, run, n);
    SendsAll(hp, cp, run[n], fromHost, payloads);
    var w := Run(hp, cp, run[n], Payloads(fromHost, payloads));
    DeliversAll(hp, cp, w, fromHost, payloads);
    RunConcat(hp, cp, run[n], Payloads(fromHost, payloads), Deliveries(hp, cp, fromHost, payloads));
  }

  /** Every payload that an end delivered was published by its peer for it. */
  ghost predicate Backed(hp: Properties, cp: Properties, w: Pair) {
    && (forall p :: p in w.host.end.delivered ==> IsPublished(w.net, Peer(cp.key, hp.key, Data(p))))
    && (forall p :: p in w.client.end.delivered ==> IsPublished(w.net, Peer(hp.key, cp.key, Data(p))))
  }

  ghost predicate IsPublished(net: set<Frame>, sealed: Sealed) {
    exists f :: f in net && f.sealed == sealed
  }

  lemma PublishedStays(net: set<Frame>, net': set<Frame>, sealed: Sealed)
    requires IsPublished(net, sealed) && net <= net'
    ensures IsPublished(net', sealed)
  {
    var f :| f in net && f.sealed == sealed;
    assert f in net';
  }

  /** What one end hears as a payload was published by the other. */
  lemma HeardPayloadWasPublished(hp: Properties, cp: Properties, w: Pair, atHost: bool, f: Frame)
    requires Inv(hp, cp, w) && f in w.net && f.prefix == EncryptedPrefix
    requires var (me, e) := (if atHost then hp else cp, Actor(w, atHost).end);
             e.state == Encrypted && Heard(me, e, f).Some? && Heard(me, e, f).value.Data?
    ensures var (me, e) := (if atHost then hp else cp, Actor(w, atHost).end);
            IsPublished(w.net, if atHost then Peer(cp.key, hp.key, Data(Heard(me, e, f).value.payload))
                               else Peer(hp.key, cp.key, Data(Heard(me, e, f).value.payload)))
  {
    assert FrameOk(hp, cp, w.host.end, w.client.end, f);
  }

  /** Only receiving delivers anything. */
  lemma OthersDeliverNothing(me: Properties, n: Node, ev: Event)
    requires !ev.Receive? && Enabled(n, ev)
    ensures Apply(me, n, ev).0.end.delivered == n.end.delivered
  {
  }

  lemma StepStaysBacked(hp: Properties, cp: Properties, w: Pair, s: Step)
    requires Inv(hp, cp, w) && CanStep(w, s) && Backed(hp, cp, w)
    ensures Backed(hp, cp, Perform(hp, cp, w, s))
  {
    var (me, n, w') := (if s.atHost then hp else cp, Actor(w, s.atHost), Perform(hp, cp, w, s));
    if s.event.Receive? {
      FrameDeliversExactly(me, n.end, s.event.frame, s.event.published);
      var heard := Heard(me, n.end, s.event.frame);
      if n.end.state == Encrypted && s.event.frame.prefix == EncryptedPrefix && heard.Some? && heard.value.Data? {
        HeardPayloadWasPublished(hp, cp, w, s.atHost, s.event.frame);
      }
    } else {
      OthersDeliverNothing(me, n, s.event);
    }
    assert w.net <= w'.net;
    forall sealed | IsPublished(w.net, sealed) ensures IsPublished(w'.net, sealed) {
      PublishedStays(w.net, w'.net, sealed);
    }
  }

  lemma DeliveredWasPublished(hp: Properties, cp: Properties, run: seq<Pair>, n: nat)
    requires Partners(hp, cp) && IsRun(hp, cp, run) && n < |run|
    ensures Backed(hp, cp, run[n])
  {
    var inv := (w: Pair) => Inv(hp, cp, w) && Backed(hp, cp, w);
    forall w, w' | inv(w) && Next(hp, cp, w, w') ensures inv(w') {
      var s :| CanStep(w, s) && Perform(hp, cp, w, s) == w';
      StepKeepsInv(hp, cp, w, s);
      StepStaysBacked(hp, cp, w, s);
    }
    Runs.InvariantHolds(NEW_PAIR, NextOf(hp, cp), inv, run, n);
  }

  // ----- the four first sends that must not be refused

  datatype FirstSend = FirstFlash | HostKey | ClientKey | HostCapabilities

  predicate Says(f: Frame, lost: FirstSend) {
    match lost
    case FirstFlash => f.sealed.Shared? && f.sealed.message.Flash?
    case HostKey => f.sealed.Shared? && f.sealed.message.Pubkey?
    case ClientKey => f.sealed.Peer? && f.sealed.message.Pubkey?
    case HostCapabilities => f.sealed.Peer? && f.sealed.message.Capabilities?
  }

  /** Where the two ends stand when one first send was refused: the sender keeps
      nothing repeating, and the receiver waits for what was never published. */
  predicate Waiting(host: End, client: End, lost: FirstSend) {
    match lost
    case FirstFlash => client.state in {Handshake, Error} && client.repeating.None? && Rank(host.state) <= 2
    case HostKey =>
      host.state in {Handshake, Error} && host.repeating.None?
      && client.state in {Handshake, Error} && client.relyingKey.None?
    case ClientKey =>
      client.state in {HandshakePartial, Error} && client.repeating.None?
      && host.state in {Handshake, Error} && host.relyingKey.None?
    case HostCapabilities =>
      host.state in {HandshakePartial, Error} && host.repeating.None? && client.state in {HandshakePartial, Error}
  }

  ghost predicate Stalled(hp: Properties, cp: Properties, w: Pair, lost: FirstSend) {
    && Inv(hp, cp, w) && Waiting(w.host.end, w.client.end, lost)
    && forall f :: f in w.net ==> !Says(f, lost)
  }

  /** The end that takes a step goes on waiting, and publishes nothing that is waited for. */
  lemma HostGoesOnWaiting(hp: Properties, cp: Properties, w: Pair, s: Step, lost: FirstSend)
    requires Stalled(hp, cp, w, lost) && CanStep(w, s) && s.atHost
    requires s.event.Receive? ==> FrameOk(hp, cp, w.host.end, w.client.end, s.event.frame) && !Says(s.event.frame, lost)
    ensures var (n', sent) := Apply(hp, w.host, s.event);
            Waiting(n'.end, w.client.end, lost) && (sent.Some? ==> !Says(sent.value, lost))
  {
  }

  lemma ClientGoesOnWaiting(hp: Properties, cp: Properties, w: Pair, s: Step, lost: FirstSend)
    requires Stalled(hp, cp, w, lost) && CanStep(w, s) && !s.atHost
    requires s.event.Receive? ==> FrameOk(hp, cp, w.host.end, w.client.end, s.event.frame) && !Says(s.event.frame, lost)
    ensures var (n', sent) := Apply(cp, w.client, s.event);
            Waiting(w.host.end, n'.end, lost) && (sent.Some? ==> !Says(sent.value, lost))
  {
  }

  /** No step, whether its publish succeeds or not, gets a stalled pair moving. */
  lemma StalledStays(hp: Properties, cp: Properties, w: Pair, s: Step, lost: FirstSend)
    requires Stalled(hp, cp, w, lost) && CanStep(w, s)
    ensures Stalled(hp, cp, Perform(hp, cp, w, s), lost)
  {
    StepKeepsInv(hp, cp, w, s);
    if s.atHost {
      HostGoesOnWaiting(hp, cp, w, s, lost);
    } else {
      ClientGoesOnWaiting(hp, cp, w, s, lost);
    }
  }

  lemma {:induction false} StalledNeverCompletes(hp: Properties, cp: Properties, w: Pair, steps: seq<Step>, lost: FirstSend)
    requires Stalled(hp, cp, w, lost) && CanRun(hp, cp, w, steps)
    ensures !Complete(Run(hp, cp, w, steps))
    decreases |steps|
  {
    if steps != [] {
      StalledStays(hp, cp, w, steps[0], lost);
      StalledNeverCompletes(hp, cp, Perform(hp, cp, w, steps[0]), steps[1..], lost);
    }
  }

  /** An end that does not resend is stalled by the send of its own state. */
  function Lost(w: Pair): FirstSend {
    if !Repeating(w.client.end, Handshake) then FirstFlash
    else if !Repeating(w.host.end, Handshake) then HostKey
    else if !Repeating(w.client.end, HandshakePartial) then ClientKey
    else HostCapabilities
  }

  lemma NotResendingIsStalled(hp: Properties, cp: Properties, w: Pair)
    requires Inv(hp, cp, w) && Live(w) && !BothResend(w)
    ensures Stalled(hp, cp, w, Lost(w))
  {
    forall f | f in w.net ensures !Says(f, Lost(w)) {
      assert FrameOk(hp, cp, w.host.end, w.client.end, f);
    }
  }

  ghost predicate CanComplete(hp: Properties, cp: Properties, w: Pair) {
    exists steps :: CanRun(hp, cp, w, steps) && Complete(Run(hp, cp, w, steps))
  }

  /** Exactly when recovery is possible: in every reachable live state, with any
      publishes refused before and from then on, some steps complete the
      handshake if and only if both ends still resend. */
  lemma RecoveryIsExact(hp: Properties, cp: Properties, run: seq<Pair>, n: nat)
    requires Partners(hp, cp) && IsRun(hp, cp, run) && n < |run| && Live(run[n])
    ensures CanComplete(hp, cp, run[n]) <==> BothResend(run[n])
  {
    RunInvariant(hp, cp, run, n);
    if BothResend(run[n]) {
      var steps := Completes(hp, cp, run[n]);
    } else {
      NotResendingIsStalled(hp, cp, run[n]);
      forall steps | CanRun(hp, cp, run[n], steps) ensures !Complete(Run(hp, cp, run[n], steps)) {
        StalledNeverCompletes(hp, cp, run[n], steps, Lost(run[n]));
      }
    }
  }

  /** Resending ends only by progress or failure: within its state an end goes on. */
  lemma ResendingLasts(hp: Properties, cp: Properties, w: Pair, s: Step)
    requires Inv(hp, cp, w) && CanStep(w, s) && Resends(Actor(w, s.atHost).end)
    ensures var e, e' := Actor(w, s.atHost).end, Actor(Perform(hp, cp, w, s), s.atHost).end;
            e'.state == e.state ==> Resends(e')
  {
    StepKeepsInv(hp, cp, w, s);
  }

  // ----- each of the four stalls is reached

  lemma Advance(hp: Properties, cp: Properties, run: seq<Pair>, s: Step) returns (longer: seq<Pair>)
    requires IsRun(hp, cp, run) && CanStep(run[|run| - 1], s)
    ensures IsRun(hp, cp, longer) && longer == run + [Perform(hp, cp, run[|run| - 1], s)]
  {
    var last := run[|run| - 1];
    longer := run + [Perform(hp, cp, last, s)];
    assert NextOf(hp, cp)(last, longer[|run|]);
    Runs.Extend(NEW_PAIR, NextOf(hp, cp), run, longer[|run|]);
  }

  /** Both set up, with the client's flash published or refused. */
  lemma SetUpRun(hp: Properties, cp: Properties, accepted: bool) returns (run: seq<Pair>)
    requires Partners(hp, cp)
    ensures IsRun(hp, cp, run)
    ensures run[|run| - 1] ==
              Pair(Node(End(Ready, None, None, None, false, [Connecting, Ready], []), Finished, false),
                   Node(End(Handshake, None, None, if accepted then Some(FlashOut()) else None, true,
                            [Connecting, Ready, Handshake], []), Finished, false),
                   if accepted then {Seal(cp, None, FlashOut()).value} else {})
  {
    run := [NEW_PAIR];
    run := Advance(hp, cp, run, Step(true, SetupStarts));
    run := Advance(hp, cp, run, Step(true, SetupFinishes(true)));
    run := Advance(hp, cp, run, Step(false, SetupStarts));
    run := Advance(hp, cp, run, Step(false, SetupFinishes(accepted)));
  }

  /** The host has answered the flash, and its key was published or refused. */
  lemma HostKeyRun(hp: Properties, cp: Properties, accepted: bool) returns (run: seq<Pair>)
    requires Partners(hp, cp)
    ensures IsRun(hp, cp, run)
    ensures var w := run[|run| - 1];
            && w.host.end.state == Handshake && w.host.end.repeating.Some? == accepted && w.host.end.relyingKey.None?
            && w.client.end.state == Handshake && w.client.end.relyingKey.None?
            && (accepted ==> Seal(hp, None, HostKeyOut(hp)).value in w.net)
  {
    run := SetUpRun(hp, cp, true);
    run := Advance(hp, cp, run, Step(true, Receive(Seal(cp, None, FlashOut()).value, accepted)));
  }

  /** The client has stored the host's key, and its own was published or refused. */
  lemma ClientKeyRun(hp: Properties, cp: Properties, accepted: bool) returns (run: seq<Pair>)
    requires Partners(hp, cp)
    ensures IsRun(hp, cp, run)
    ensures var w := run[|run| - 1];
            && w.host.end.state == Handshake && w.host.end.relyingKey.None?
            && w.client.end.state == HandshakePartial && w.client.end.repeating.Some? == accepted
            && (accepted ==> Seal(cp, Some(hp.key), ClientKeyOut(cp)).value in w.net)
  {
    run := HostKeyRun(hp, cp, true);
    run := Advance(hp, cp, run, Step(false, Receive(Seal(hp, None, HostKeyOut(hp)).value, accepted)));
  }

  /** The host has stored the client's key, and its capabilities were refused. */
  lemma RefusedCapabilitiesRun(hp: Properties, cp: Properties) returns (run: seq<Pair>)
    requires Partners(hp, cp)
    ensures IsRun(hp, cp, run)
    ensures var w := run[|run| - 1];
            && w.host.end.state == HandshakePartial && w.host.end.repeating.None?
            && w.client.end.state == HandshakePartial && w.client.end.repeating.Some?
  {
    run := ClientKeyRun(hp, cp, true);
    run := Advance(hp, cp, run, Step(true, Receive(Seal(cp, Some(hp.key), ClientKeyOut(cp)).value, false)));
  }

  /** For every host and client and each of the four sends there is a run in
      which only that one publish was refused, neither end has failed, and the
      handshake can never complete. */
  lemma EveryFirstSendMatters(hp: Properties, cp: Properties, lost: FirstSend) returns (run: seq<Pair>)
    requires Partners(hp, cp)
    ensures IsRun(hp, cp, run) && Live(run[|run| - 1]) && Lost(run[|run| - 1]) == lost
    ensures Stalled(hp, cp, run[|run| - 1], lost) && !CanComplete(hp, cp, run[|run| - 1])
  {
    match lost {
      case FirstFlash => run := SetUpRun(hp, cp, false);
      case HostKey => run := HostKeyRun(hp, cp, false);
      case ClientKey => run := ClientKeyRun(hp, cp, false);
      case HostCapabilities => run := RefusedCapabilitiesRun(hp, cp);
    }
    var last := |run| - 1;
    RunInvariant(hp, cp, run, last);
    NotResendingIsStalled(hp, cp, run[last]);
    RecoveryIsExact(hp, cp, run, last);
  }
}
