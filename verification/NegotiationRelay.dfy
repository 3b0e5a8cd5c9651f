/**
 Transport negotiation on its way over signaling: wrapped in a session request
 by the sender, and told apart from other session messages by the receiver.
 */
module NegotiationRelay {
  import opened Common

  /** A JSON value; `Opaque` is any that is neither a string nor an object. */
  datatype Json = Text(text: string) | Object(fields: map<string, Json>) | Opaque(value: nat)

  datatype NegotiationMessage = NegotiationMessage(kind: string, payload: string)

  datatype SessionJson =
    | Request(messageId: string, payload: Json)
    | Response(messageId: string, payload: Json)
    | Ack(messageId: string)
    | Failed(messageId: string)
    | Close
    | Unknown

  function TextField(j: Json, name: string): Option<string> {
    if j.Object? && name in j.fields && j.fields[name].Text? then Some(j.fields[name].text) else None
  }

  function NegotiationFrom(j: Json): Option<NegotiationMessage> {
    var kind, payload := TextField(j, "type"), TextField(j, "payload");
    if kind.Some? && payload.Some? then Some(NegotiationMessage(kind.value, payload.value)) else None
  }

  function NegotiationJson(n: NegotiationMessage): Json {
    Object(map["type" := Text(n.kind), "payload" := Text(n.payload)])
  }

  /** An unknown type is a message of its own; a known one needs its fields. */
  function SessionFrom(j: Json): Option<SessionJson> {
    var kind, id := TextField(j, "type"), TextField(j, "messageId");
    if kind.None? then None
    else if kind.value == "close" then Some(Close)
    else if kind.value !in {"request", "response", "ack", "failed"} then Some(Unknown)
    else if id.None? then None
    else if kind.value == "ack" then Some(Ack(id.value))
    else if kind.value == "failed" then Some(Failed(id.value))
    else if "payload" !in j.fields then None
    else if kind.value == "request" then Some(Request(id.value, j.fields["payload"]))
    else Some(Response(id.value, j.fields["payload"]))
  }

  function RequestJson(id: string, payload: Json): Json {
    Object(map["type" := Text("request"), "messageId" := Text(id), "payload" := payload])
  }

  /** What the sending end puts on signaling for a negotiation message. */
  function Relay(n: NegotiationMessage, id: string): Json {
    RequestJson(id, NegotiationJson(n))
  }

  /** What the receiving end does with a payload: hands a negotiation to the
      transport, spreads a session message to open calls, or neither. */
  datatype Routed = Routed(negotiation: Option<NegotiationMessage>, spread: Option<SessionJson>)

  function Route(j: Json): Routed {
    var direct := NegotiationFrom(j);
    if direct.Some? then Routed(direct, None)
    else
      match SessionFrom(j)
      case None => Routed(None, None)
      case Some(Request(_, payload)) => Routed(NegotiationFrom(payload), None)
      case Some(other) => Routed(None, Some(other))
  }

  /** Every negotiation message arrives as it was sent, wrapped or not, and
      reaches no open call. */
  lemma RelayedNegotiationArrives(n: NegotiationMessage, id: string)
    ensures Route(Relay(n, id)) == Routed(Some(n), None)
    ensures Route(NegotiationJson(n)) == Routed(Some(n), None)
  {
    var payload, wrapped := NegotiationJson(n), Relay(n, id);
    assert payload.fields["type"] == Text(n.kind) && payload.fields["payload"] == Text(n.payload);
    assert wrapped.fields["type"] == Text("request") && wrapped.fields["messageId"] == Text(id);
    assert wrapped.fields["payload"] == payload;
  }

  /** A request that comes over signaling never reaches an open call. One with a
      text for its payload is taken for a negotiation of the kind `request`. */
  lemma RequestsAreNotSpread(id: string, payload: Json)
    ensures Route(RequestJson(id, payload)).spread == None
    ensures Route(RequestJson(id, payload)).negotiation
            == if payload.Text? then Some(NegotiationMessage("request", payload.text)) else NegotiationFrom(payload)
  {
    var wrapped := RequestJson(id, payload);
    assert wrapped.fields["type"] == Text("request") && wrapped.fields["messageId"] == Text(id);
    assert wrapped.fields["payload"] == payload;
  }

  function SessionJsonOf(m: SessionJson): Json {
    match m
    case Request(id, payload) => RequestJson(id, payload)
    case Response(id, payload) => Object(map["type" := Text("response"), "messageId" := Text(id), "payload" := payload])
    case Ack(id) => Object(map["type" := Text("ack"), "messageId" := Text(id)])
    case Failed(id) => Object(map["type" := Text("failed"), "messageId" := Text(id)])
    case Close => Object(map["type" := Text("close")])
    case Unknown => Object(map["type" := Text("")])
  }

  /** Every session message is read back from its own JSON. */
  lemma SessionRoundTrip(m: SessionJson)
    ensures SessionFrom(SessionJsonOf(m)) == Some(m)
  {
    var j := SessionJsonOf(m);
    assert m.Request? ==> j.fields["type"] == Text("request");
    assert m.Response? ==> j.fields["type"] == Text("response");
    assert m.Ack? ==> j.fields["type"] == Text("ack");
    assert m.Failed? ==> j.fields["type"] == Text("failed");
    assert m.Close? ==> j.fields["type"] == Text("close");
    assert m.Unknown? ==> j.fields["type"] == Text("");
    assert !m.Close? && !m.Unknown? ==> j.fields["messageId"] == Text(m.messageId);
    assert m.Request? || m.Response? ==> j.fields["payload"] == m.payload;
  }

  /** A session message over signaling is spread to open calls exactly when it is not a
      request and not a response whose payload is a text, which is taken for a negotiation. */
  lemma SpreadExactly(m: SessionJson)
    ensures Route(SessionJsonOf(m)).spread
            == if m.Request? || (m.Response? && m.payload.Text?) then None else Some(m)
  {
    SessionRoundTrip(m);
    var j := SessionJsonOf(m);
    assert m.Request? || m.Response? ==> j.fields["payload"] == m.payload;
    assert !m.Request? && !m.Response? ==> "payload" !in j.fields;
    if m.Request? {
      RequestsAreNotSpread(m.messageId, m.payload);
    } else if m.Response? {
      assert j.fields["type"] == Text("response");
    }
  }
}
