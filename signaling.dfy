/** The signalling state machine of the peer connection: the transition
    table `signalingStateMap` (bridge/client/webrtc.js:1197-1210), looked up
    with "setLocal:" or "setRemote:" and the description's type. */
module Signaling {
  import opened Wrappers

  datatype SignalingState = Stable | HaveLocalOffer | HaveRemoteOffer | Closed

  /** Which description is being set. */
  datatype Side = Local | Remote

  function StateName(s: SignalingState): string {
    match s
    case Stable => "stable"
    case HaveLocalOffer => "have-local-offer"
    case HaveRemoteOffer => "have-remote-offer"
    case Closed => "closed"
  }

  function Other(side: Side): Side {
    if side.Local? then Remote else Local
  }

  /** The state in which `side` has an offer outstanding. */
  function HaveOffer(side: Side): SignalingState {
    if side.Local? then HaveLocalOffer else HaveRemoteOffer
  }

  /** The entry of the table for a state, a side and a description type:
      `None` where the table has no entry. The closed state has no row at
      all; the caller treats it separately. An offer is accepted in the
      stable state and repeated in the state that already holds an offer
      from the same side; an answer is accepted only when the other side
      has an offer outstanding, and leads back to stable. */
  function Transition(state: SignalingState, side: Side, descType: string): (r: Option<SignalingState>)
    ensures descType == "offer" ==>
      (r.Some? <==> state == Stable || state == HaveOffer(side))
    ensures descType == "offer" && r.Some? ==> r.value == HaveOffer(side)
    ensures descType == "answer" ==> (r.Some? <==> state == HaveOffer(Other(side)))
    ensures descType == "answer" && r.Some? ==> r.value == Stable
    ensures descType != "offer" && descType != "answer" ==> r.None?
    ensures state == Closed ==> r.None?
  {
    assert "offer"[0] != "answer"[0];
    match state
    case Stable =>
      if side.Local? && descType == "offer" then Some(HaveLocalOffer)
      else if side.Remote? && descType == "offer" then Some(HaveRemoteOffer)
      else None
    case HaveLocalOffer =>
      if side.Local? && descType == "offer" then Some(HaveLocalOffer)
      else if side.Remote? && descType == "answer" then Some(Stable)
      else None
    case HaveRemoteOffer =>
      if side.Local? && descType == "answer" then Some(Stable)
      else if side.Remote? && descType == "offer" then Some(HaveRemoteOffer)
      else None
    case Closed => None
  }

  /** Accepted descriptions applied one after another, stopping at the
      first the table rejects. */
  function Run(state: SignalingState, steps: seq<(Side, string)>): SignalingState
    decreases |steps|
  {
    if steps == [] then state
    else match Transition(state, steps[0].0, steps[0].1)
      case Some(next) => Run(next, steps[1..])
      case None => state
  }

  /** A complete exchange, whichever side offers: the offering side's offer,
      then the other side's answer, returns a stable connection to stable. */
  lemma OfferAnswerExchange(offerer: Side)
    ensures Run(Stable, [(offerer, "offer"), (Other(offerer), "answer")]) == Stable
  {
    var steps := [(offerer, "offer"), (Other(offerer), "answer")];
    assert "offer"[0] != "answer"[0];
    assert Transition(Stable, offerer, "offer") == Some(HaveOffer(offerer));
    assert steps[1..] == [(Other(offerer), "answer")];
    assert Other(Other(offerer)) == offerer;
    assert Transition(HaveOffer(offerer), Other(offerer), "answer") == Some(Stable);
    assert steps[1..][1..] == [];
    assert Run(HaveOffer(offerer), steps[1..]) == Run(Stable, []);
    assert Run(Stable, steps) == Run(HaveOffer(offerer), steps[1..]);
  }

  /** No sequence of descriptions leads into or out of the closed state. */
  lemma {:induction false} RunKeepsClosed(state: SignalingState, steps: seq<(Side, string)>)
    ensures (Run(state, steps) == Closed) <==> (state == Closed)
    decreases |steps|
  {
    if steps != [] {
      match Transition(state, steps[0].0, steps[0].1)
      case Some(next) =>
        RunKeepsClosed(next, steps[1..]);
      case None =>
    }
  }

  /** Glare: once one side has an offer outstanding, an offer from the other
      side is refused and the state is unchanged. */
  lemma {:induction false} GlareRefused(side: Side, steps: seq<(Side, string)>)
    requires steps != [] && steps[0] == (Other(side), "offer")
    ensures Run(HaveOffer(side), steps) == HaveOffer(side)
  {
    assert HaveOffer(side) != Stable && HaveOffer(side) != HaveOffer(Other(side));
  }
}
