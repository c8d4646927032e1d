/** What the turns of the queued operations promise
    (bridge/client/webrtc.js:1737-2157), stated against the signalling
    table, the payload filter and the remote description's lines. */
module NegotiationProps {
  import opened Wrappers
  import opened SdpTypes
  import opened Seqs
  import opened Signaling
  import opened DataChannel
  import opened SdpParse
  import opened SdpGenerate
  import opened PayloadFilter
  import opened Reconcile
  import opened LocalParams
  import opened Offer
  import opened Answer
  import opened Negotiation

  /** The signalling table (bridge/client/webrtc.js:1197-1210) read as a
      rule: an offer from a stable state or repeated on the offering side,
      an answer to the other side's offer. */
  predicate Accepts(state: SignalingState, side: Side, descType: string) {
    (descType == "offer" && (state == Stable || state == HaveOffer(side)))
    || (descType == "answer" && state == HaveOffer(Other(side)))
  }

  /** The state an accepted description leads to. */
  function Target(side: Side, descType: string): SignalingState {
    if descType == "offer" then HaveOffer(side) else Stable
  }

  // ---------------------------------------------------------------------
  // setLocalDescription

  /** In the closed state the turn stalls; otherwise it is rejected exactly
      when the table refuses the description, and leaves everything as it
      was; an accepted description moves the state as the table says and
      becomes the local description, and nothing else changes. */
  lemma SetLocalRules(c: Conn, descType: string, parsed: Session)
    ensures SetLocalStep(c, descType, parsed).1 == Stalled <==> c.signalingState == Closed
    ensures SetLocalStep(c, descType, parsed).1.Rejected? <==>
      c.signalingState != Closed && !Accepts(c.signalingState, Local, descType)
    ensures !SetLocalStep(c, descType, parsed).1.Resolved? ==> SetLocalStep(c, descType, parsed).0 == c
    ensures SetLocalStep(c, descType, parsed).1.Rejected? ==> SetLocalStep(c, descType, parsed).1.error == InvalidSessionDescriptionError
    ensures SetLocalStep(c, descType, parsed).1.Resolved? ==>
      SetLocalStep(c, descType, parsed).1.value.None?
      && SetLocalStep(c, descType, parsed).0 == c.(signalingState := Target(Local, descType),
                                    localSessionInfo := Some(parsed))
  {
    var t := Transition(c.signalingState, Local, descType);
    assert t.Some? <==> c.signalingState != Closed && Accepts(c.signalingState, Local, descType);
    assert t.Some? ==> t.value == Target(Local, descType);
  }

  // ---------------------------------------------------------------------
  // setRemoteDescription

  /** The second loop keeps every line, in place: the lines before the
      first whose filter throws are filtered, the rest are untouched, and
      it succeeds exactly when no line throws. */
  lemma FilterLinesShape(ms: seq<MediaDescription>)
    ensures |FilterLines(ms).0| == |ms|
    ensures FilterLines(ms).1 <==> forall i :: 0 <= i < |ms| ==> !FilterFails(ms[i])
    ensures forall i :: 0 <= i < |ms| ==>
      FilterLines(ms).0[i] ==
        (if FilterLines(ms).1 || i < FirstIndex(ms, FilterFails) then Filtered(ms[i]) else ms[i])
  {
    var k := FirstIndex(ms, FilterFails);
    if k != -1 {
      var out := Map(ms[..k], Filtered) + ms[k..];
      assert forall i :: 0 <= i < |ms| ==> out[i] == (if i < k then Filtered(ms[i]) else ms[i]);
    }
  }

  /** A filtered line differs from the line only in its payloads, which for
      audio and video are what both filter passes keep: an order-keeping
      subsequence of the remote payloads. */
  lemma FilteredLine(m: MediaDescription)
    requires !FilterFails(m)
    ensures Filtered(m).(payloads := m.payloads) == m
    ensures m.media != Application ==>
      m.payloads.Some? && !Unnamed(m.payloads.value)
      && Filtered(m).payloads == FilterPayloads(m.media, m.payloads.value)
      && IsSubsequence(Filtered(m).payloads.value, m.payloads.value)
  {
    if m.media != Application {
      FilterPayloadsSubsequence(m.media, m.payloads.value);
    }
  }

  /** Whether some line announces trickle ICE does not depend on the
      payloads. */
  lemma {:induction false} TrickleIgnoresPayloads(ms: seq<MediaDescription>, out: seq<MediaDescription>)
    requires |out| == |ms|
    requires forall i :: 0 <= i < |ms| ==> out[i].ice == ms[i].ice
    ensures AnyTrickle(out) == AnyTrickle(ms)
    ensures IceSet(out) == IceSet(ms)
  {
    if AnyTrickle(ms) {
      var k :| 0 <= k < |ms| && ms[k].ice.Some? && ms[k].ice.value.trickle;
      assert out[k].ice == ms[k].ice;
    }
    if AnyTrickle(out) {
      var k :| 0 <= k < |out| && out[k].ice.Some? && out[k].ice.value.trickle;
      assert out[k].ice == ms[k].ice;
    }
  }

  /** In the closed state the turn stalls; otherwise it is rejected exactly
      when the table refuses the description, leaving everything as it was.
      An accepted description is stored even when the filter then throws,
      and the turn stalls with the state unchanged. */
  lemma SetRemoteRules(c: Conn, descType: string, parsed: Session)
    ensures c.signalingState == Closed ==> SetRemoteStep(c, descType, parsed) == (c, Stalled)
    ensures SetRemoteStep(c, descType, parsed).1.Rejected? <==>
      c.signalingState != Closed && !Accepts(c.signalingState, Remote, descType)
    ensures SetRemoteStep(c, descType, parsed).1.Rejected? ==>
      SetRemoteStep(c, descType, parsed) == (c, Rejected(InvalidSessionDescriptionError))
    ensures c.signalingState != Closed && Accepts(c.signalingState, Remote, descType) ==>
      SetRemoteStep(c, descType, parsed).0.remoteSessionInfo == Some(RemoteStored(parsed).0)
      && (SetRemoteStep(c, descType, parsed).1.Resolved? <==> RemoteStored(parsed).1)
      && (SetRemoteStep(c, descType, parsed).1 == Stalled <==> !RemoteStored(parsed).1)
    ensures SetRemoteStep(c, descType, parsed).1 == Stalled && c.signalingState != Closed ==>
      SetRemoteStep(c, descType, parsed).0 == c.(remoteSessionInfo := Some(RemoteStored(parsed).0))
    ensures SetRemoteStep(c, descType, parsed).1.Resolved? ==>
      SetRemoteStep(c, descType, parsed).1.value.None?
      && SetRemoteStep(c, descType, parsed).0.signalingState == Target(Remote, descType)
      && SetRemoteStep(c, descType, parsed).0.localSessionInfo == c.localSessionInfo
  {
    var t := Transition(c.signalingState, Remote, descType);
    assert t.Some? <==> c.signalingState != Closed && Accepts(c.signalingState, Remote, descType);
    assert t.Some? ==> t.value == Target(Remote, descType);
  }

  /** Lines that pass the filter are kept in order, each with an ICE
      object; every audio and video line carries the payloads the filter
      keeps, an order-keeping subsequence of its own; and trickle ICE is
      announced after exactly when it was before. */
  lemma StoredLines(ms: seq<MediaDescription>)
    requires FilterLines(Map(ms, NormalizeIce)).1
    ensures var stored := FilterLines(Map(ms, NormalizeIce)).0;
      |stored| == |ms|
      && IceSet(stored)
      && AnyTrickle(stored) == AnyTrickle(Map(ms, NormalizeIce))
      && forall i :: 0 <= i < |ms| ==>
           stored[i].(payloads := ms[i].payloads) == NormalizeIce(ms[i])
           && (ms[i].media != Application ==>
                 ms[i].payloads.Some?
                 && stored[i].payloads == FilterPayloads(ms[i].media, ms[i].payloads.value)
                 && IsSubsequence(stored[i].payloads.value, ms[i].payloads.value))
  {
    var lines := Map(ms, NormalizeIce);
    var stored := FilterLines(lines).0;
    FilterLinesShape(lines);
    forall i | 0 <= i < |ms|
      ensures stored[i].ice == lines[i].ice
      ensures stored[i].(payloads := ms[i].payloads) == NormalizeIce(ms[i])
      ensures ms[i].media != Application ==>
                 ms[i].payloads.Some?
                 && stored[i].payloads == FilterPayloads(ms[i].media, ms[i].payloads.value)
                 && IsSubsequence(stored[i].payloads.value, ms[i].payloads.value)
    {
      assert stored[i] == Filtered(lines[i]);
      FilteredLine(lines[i]);
    }
    TrickleIgnoresPayloads(lines, stored);
  }

  /** An accepted remote description keeps the parsed lines in order, each
      with an ICE object, its audio and video payloads filtered; the trickle
      flag it sets is whether a stored line announces trickle ICE. */
  lemma RemoteDescriptionStored(c: Conn, descType: string, parsed: Session)
    requires SetRemoteStep(c, descType, parsed).1.Resolved?
    ensures var next := SetRemoteStep(c, descType, parsed).0;
      next.remoteSessionInfo.Some?
      && next.remoteSessionInfo.value.(media := parsed.media) == parsed
      && next.remoteSessionInfo.value.media == FilterLines(Map(parsed.media, NormalizeIce)).0
      && FilterLines(Map(parsed.media, NormalizeIce)).1
      && IceSet(next.remoteSessionInfo.value.media)
      && next.canTrickleIceCandidates == Some(AnyTrickle(next.remoteSessionInfo.value.media))
  {
    StoredLines(parsed.media);
  }

  // ---------------------------------------------------------------------
  // addIceCandidate

  /** The error cases in the order the source meets them, and on success
      exactly one candidate appended to the line the index names: the other
      lines, the rest of that line, the signalling state, the local
      description and the trickle flag stay as they were. */
  lemma AddCandidateRules(c: Conn, init: CandidateInit, found: Option<Option<Candidate>>)
    ensures c.remoteSessionInfo.None? ==> AddCandidateStep(c, init, found) == (c, Rejected(InvalidStateError))
    ensures c.remoteSessionInfo.Some? && found.None? ==>
      AddCandidateStep(c, init, found) == (c, Rejected(SyntaxError))
    ensures c.remoteSessionInfo.Some? && found.Some? && found.value.Some?
            && !(0 <= init.sdpMLineIndex < |c.remoteSessionInfo.value.media|) ==>
      AddCandidateStep(c, init, found) == (c, Rejected(SyntaxError))
    ensures !AddCandidateStep(c, init, found).1.Resolved? ==> AddCandidateStep(c, init, found).0 == c
    ensures AddCandidateStep(c, init, found).1.Resolved? <==>
      c.remoteSessionInfo.Some? && found.Some? && found.value.Some?
      && 0 <= init.sdpMLineIndex < |c.remoteSessionInfo.value.media|
      && c.remoteSessionInfo.value.media[init.sdpMLineIndex].ice.Some?
    ensures AddCandidateStep(c, init, found).1.Resolved? ==>
      var before := c.remoteSessionInfo.value;
      var next := AddCandidateStep(c, init, found).0;
      var i := init.sdpMLineIndex;
      next.signalingState == c.signalingState
      && next.localSessionInfo == c.localSessionInfo
      && next.canTrickleIceCandidates == c.canTrickleIceCandidates
      && next.remoteSessionInfo.Some?
      && next.remoteSessionInfo.value.(media := before.media) == before
      && |next.remoteSessionInfo.value.media| == |before.media|
      && (forall k :: 0 <= k < |before.media| && k != i ==>
            next.remoteSessionInfo.value.media[k] == before.media[k])
      && next.remoteSessionInfo.value.media[i].ice.Some?
      && next.remoteSessionInfo.value.media[i].(ice := before.media[i].ice) == before.media[i]
      && next.remoteSessionInfo.value.media[i].ice.value.(candidates := before.media[i].ice.value.candidates)
         == before.media[i].ice.value
      && next.remoteSessionInfo.value.media[i].ice.value.candidates
         == Some(before.media[i].ice.value.candidates.GetOr([]) + [found.value.value])
  {
  }

  /** The candidate read from the parsed probe is the first candidate of
      its first line. */
  lemma CandidateFromProbe(probe: Session)
    requires FirstCandidate(probe).Some? && FirstCandidate(probe).value.Some?
    ensures |probe.media| > 0 && probe.media[0].ice.Some? && probe.media[0].ice.value.candidates.Some?
      && FirstCandidate(probe).value.value == probe.media[0].ice.value.candidates.value[0]
  {
  }

  // ---------------------------------------------------------------------
  // createOffer and createAnswer

  /** Writing a description changes none of the state; it stalls exactly
      when there is nothing to write, and otherwise resolves with a
      description of the asked type holding the generated text. */
  lemma WrittenRules(c: Conn, descType: string, s: Option<Session>, sessionId: string)
    ensures Written(c, descType, s, sessionId).0 == c
    ensures Written(c, descType, s, sessionId).1 == Stalled <==> s.None?
    ensures Written(c, descType, s, sessionId).1.Resolved? <==> s.Some?
    ensures s.Some? ==>
      Written(c, descType, s, sessionId).1.value == Some(Description(descType, GenerateSpec(s.value, sessionId)))
  {
  }

  /** Writing an offer changes none of the state and always resolves with
      an offer. */
  lemma OfferReadsOnly(c: Conn, options: OfferOptions, tracks: seq<TrackInfo>, hasDataChannels: bool,
                       cname: string, id: Identity, e: Entropy)
    ensures OfferStep(c, options, tracks, hasDataChannels, cname, id, e).0 == c
    ensures var o := OfferStep(c, options, tracks, hasDataChannels, cname, id, e).1;
      o.Resolved? && o.value.Some? && o.value.value.descType == "offer"
  {
    var s := OfferSnapshot(c.localSessionInfo, tracks, options, hasDataChannels, cname, id, e);
    WrittenRules(c, "offer", Some(s), e.sessionId);
  }

  /** Writing an answer changes none of the state, and is rejected
      exactly when there is no remote description. */
  lemma AnswerReadsOnly(c: Conn, tracks: seq<TrackInfo>, cname: string, id: Identity, e: Entropy)
    ensures AnswerStep(c, tracks, cname, id, e).0 == c
    ensures AnswerStep(c, tracks, cname, id, e).1.Rejected? <==>
      c.remoteSessionInfo.None?
    ensures AnswerStep(c, tracks, cname, id, e).1.Rejected? ==>
      AnswerStep(c, tracks, cname, id, e).1.error == InvalidStateError
  {
  }

  /** With a remote description, the answer stalls exactly when one of its
      lines cannot be written, and otherwise resolves with an answer. */
  lemma AnswerWritten(c: Conn, tracks: seq<TrackInfo>, cname: string, id: Identity, e: Entropy)
    ensures AnswerStep(c, tracks, cname, id, e).1 == Stalled <==>
      c.remoteSessionInfo.Some?
      && AnswerSpec(c.localSessionInfo, c.remoteSessionInfo.value, tracks, cname, id, e).None?
    ensures var o := AnswerStep(c, tracks, cname, id, e).1;
      o.Resolved? ==> o.value.Some? && o.value.value.descType == "answer"
  {
    if c.remoteSessionInfo.Some? {
      var s := AnswerSpec(c.localSessionInfo, c.remoteSessionInfo.value, tracks, cname, id, e);
      WrittenRules(c, "answer", s, e.sessionId);
    }
  }
}
