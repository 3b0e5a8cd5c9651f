/** Which transport the two ends settle on. */
module TransportChoice {
  import opened Common

  /** The first transport of the host's list that the client supports, computed
      by either end from its own list and the peer's. */
  function SelectTransportId(isHost: bool, own: seq<string>, peer: seq<string>): (chosen: Option<string>)
    ensures var (preference, supported) := if isHost then (own, peer) else (peer, own);
            match chosen
            case None => forall t :: t in preference ==> t !in supported
            case Some(c) =>
              exists i :: 0 <= i < |preference| && preference[i] == c && c in supported
                       && forall j :: 0 <= j < i ==> preference[j] !in supported
  {
    if isHost then FirstSupported(own, peer) else FirstSupported(peer, own)
  }

  function FirstSupported(preference: seq<string>, supported: seq<string>): (chosen: Option<string>)
    ensures match chosen
            case None => forall t :: t in preference ==> t !in supported
            case Some(c) =>
              exists i :: 0 <= i < |preference| && preference[i] == c && c in supported
                       && forall j :: 0 <= j < i ==> preference[j] !in supported
  {
    if preference == [] then None
    else if preference[0] in supported then
      Some(preference[0])
    else
      var rest := FirstSupported(preference[1..], supported);
      assert rest.Some? ==> forall i :: 0 <= i < |preference[1..]| ==> preference[1..][i] == preference[i + 1];
      rest
  }
}
