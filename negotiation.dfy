/** What each queued operation of the peer connection does when its turn
    comes (bridge/client/webrtc.js:1737-2157): the state it reads and writes,
    and how its promise settles. An operation that throws inside its turn
    never reaches `completeQueuedOperation`, so its promise never settles
    and the queue stops: the outcome `Stalled`. */
module Negotiation {
  import opened Wrappers
  import opened SdpTypes
  import opened Seqs
  import opened Signaling
  import opened DataChannel
  import opened SdpParse
  import SdpReader
  import opened SdpGenerate
  import opened PayloadFilter
  import opened Reconcile
  import opened LocalParams
  import opened Offer
  import opened Answer

  /** `RTCSessionDescription`. */
  datatype Description = Description(descType: string, sdp: string)

  /** `RTCIceCandidate`: the attribute text and the line it belongs to. */
  datatype CandidateInit = CandidateInit(candidate: string, sdpMLineIndex: int)

  datatype Operation =
    | CreateOfferOp(options: OfferOptions)
    | CreateAnswerOp
    | SetLocalOp(description: Description)
    | SetRemoteOp(description: Description)
    | AddIceCandidateOp(init: CandidateInit)

  /** How an operation's promise settles, if it does. */
  datatype Outcome = Resolved(value: Option<Description>) | Rejected(error: DomError) | Stalled

  /** The state the queued operations read and write. */
  datatype Conn = Conn(
    signalingState: SignalingState,
    localSessionInfo: Option<Session>,
    remoteSessionInfo: Option<Session>,
    canTrickleIceCandidates: Option<bool>)

  // ---------------------------------------------------------------------
  // setLocalDescription (bridge/client/webrtc.js:1964-1999)

  /** The turn of a local description of type `descType` whose text parses
      to `parsed`. The closed state has no row in the table, so looking it
      up throws. */
  function SetLocalStep(c: Conn, descType: string, parsed: Session): (Conn, Outcome) {
    if c.signalingState == Closed then (c, Stalled)
    else
      match Transition(c.signalingState, Local, descType)
      case None => (c, Rejected(InvalidSessionDescriptionError))
      case Some(target) =>
        (c.(signalingState := target, localSessionInfo := Some(parsed)), Resolved(None))
  }

  // ---------------------------------------------------------------------
  // setRemoteDescription (bridge/client/webrtc.js:2025-2078)

  /** A remote line without ICE gets an empty ICE object. */
  function NormalizeIce(m: MediaDescription): (r: MediaDescription)
    ensures r.ice.Some?
  {
    if m.ice.None? then m.(ice := Some(Ice(None, None, false, None, false))) else m
  }

  /** The first loop over the remote lines: every line given an ICE object,
      and whether any of them announces trickle ICE. */
  method NormalizeRemote(ms: seq<MediaDescription>) returns (out: seq<MediaDescription>, canTrickle: bool)
    ensures out == Map(ms, NormalizeIce)
    ensures canTrickle == AnyTrickle(out)
  {
    out := ms;
    canTrickle := false;
    for i := 0 to |ms|
      invariant |out| == |ms|
      invariant out[..i] == Map(ms[..i], NormalizeIce) && out[i..] == ms[i..]
      invariant canTrickle == AnyTrickle(out[..i])
    {
      assert ms[..i + 1] == ms[..i] + [ms[i]];
      var m := NormalizeIce(out[i]);
      assert out[i] == ms[i];
      out := out[i := m];
      assert out[..i + 1] == out[..i] + [m];
      if m.ice.value.trickle {
        canTrickle := true;
      }
    }
    assert out[..|ms|] == out && ms[..|ms|] == ms;
  }

  /** The filter of one remote line: audio and video lines keep the
      payloads both passes accept; `None` when reading the payloads throws. */
  function FilterLine(m: MediaDescription): (r: Option<MediaDescription>)
    ensures r.None? <==> m.media != Application && (m.payloads.None? || Unnamed(m.payloads.value))
    ensures r.Some? ==> r.value.(payloads := m.payloads) == m
    ensures r.Some? && m.media != Application ==>
      r.value.payloads == FilterPayloads(m.media, m.payloads.value)
  {
    if m.media == Application then Some(m)
    else if m.payloads.None? then None
    else
      match FilterPayloads(m.media, m.payloads.value)
      case None => None
      case Some(ps) => Some(m.(payloads := Some(ps)))
  }

  predicate FilterFails(m: MediaDescription) {
    FilterLine(m).None?
  }

  function Filtered(m: MediaDescription): MediaDescription {
    FilterLine(m).GetOr(m)
  }

  /** The second loop over the remote lines: the lines filtered up to the
      first whose filter throws, and whether none did. */
  function FilterLines(ms: seq<MediaDescription>): (seq<MediaDescription>, bool) {
    var k := FirstIndex(ms, FilterFails);
    if k == -1 then (Map(ms, Filtered), true)
    else (Map(ms[..k], Filtered) + ms[k..], false)
  }

  method FilterRemoteLines(ms: seq<MediaDescription>) returns (out: seq<MediaDescription>, ok: bool)
    ensures (out, ok) == FilterLines(ms)
  {
    out := ms;
    for i := 0 to |ms|
      invariant |out| == |ms|
      invariant out[..i] == Map(ms[..i], Filtered) && out[i..] == ms[i..]
      invariant forall j :: 0 <= j < i ==> !FilterFails(ms[j])
    {
      assert out[i] == ms[i];
      var m := FilterLine(out[i]);
      if m.None? {
        FirstIndexIs(ms, FilterFails, i);
        assert out == out[..i] + out[i..];
        return out, false;
      }
      assert ms[..i + 1] == ms[..i] + [ms[i]];
      out := out[i := m.value];
      assert out[..i + 1] == out[..i] + [m.value];
    }
    FirstIndexIs(ms, FilterFails, -1);
    assert out[..|ms|] == out && ms[..|ms|] == ms;
    ok := true;
  }

  /** The remote description as stored: its lines given ICE objects, then
      filtered (as far as the filter got). */
  function RemoteStored(parsed: Session): (Session, bool) {
    var filtered := FilterLines(Map(parsed.media, NormalizeIce));
    (parsed.(media := filtered.0), filtered.1)
  }

  /** The turn of a remote description of type `descType` whose text parses
      to `parsed`. */
  function SetRemoteStep(c: Conn, descType: string, parsed: Session): (Conn, Outcome) {
    if c.signalingState == Closed then (c, Stalled)
    else
      match Transition(c.signalingState, Remote, descType)
      case None => (c, Rejected(InvalidSessionDescriptionError))
      case Some(target) =>
        var (remote, ok) := RemoteStored(parsed);
        var canTrickle := AnyTrickle(Map(parsed.media, NormalizeIce));
        if !ok then (c.(remoteSessionInfo := Some(remote)), Stalled)
        else
          (c.(signalingState := target, remoteSessionInfo := Some(remote),
              canTrickleIceCandidates := Some(canTrickle)), Resolved(None))
  }

  // ---------------------------------------------------------------------
  // addIceCandidate (bridge/client/webrtc.js:2121-2157)

  /** The attribute with `a=` put in front unless it starts so already. */
  function WithPrefix(attr: string): (r: string)
    ensures |r| >= 2 && r[..2] == "a="
    ensures |attr| >= 2 && attr[..2] == "a=" ==> r == attr
    ensures !(|attr| >= 2 && attr[..2] == "a=") ==> r == "a=" + attr
  {
    if |attr| >= 2 && attr[..2] == "a=" then attr else "a=" + attr
  }

  /** The description the attribute is parsed in. */
  function Probe(attr: string): string {
    "m=application 0 NONE\r\n" + WithPrefix(attr) + "\r\n"
  }

  /** The first candidate the first line of a description yields: `None`
      when there is none (a SyntaxError), and `Some(None)` when the
      description has no line at all, so reading its first line throws. */
  function FirstCandidate(s: Session): (r: Option<Option<Candidate>>)
    ensures r == Some(None) <==> |s.media| == 0
    ensures r.Some? && r.value.Some? ==>
      s.media[0].ice.Some? && s.media[0].ice.value.candidates.Some?
      && |s.media[0].ice.value.candidates.value| > 0
      && r.value.value == s.media[0].ice.value.candidates.value[0]
  {
    if |s.media| == 0 then Some(None)
    else
      var ice := s.media[0].ice;
      if ice.Some? && ice.value.candidates.Some? && |ice.value.candidates.value| > 0
      then Some(Some(ice.value.candidates.value[0]))
      else None
  }

  /** The remote line with one more candidate. */
  function WithCandidate(m: MediaDescription, cand: Candidate): MediaDescription
    requires m.ice.Some?
  {
    m.(ice := Some(m.ice.value.(candidates := Some(m.ice.value.candidates.GetOr([]) + [cand]))))
  }

  /** The turn of `addIceCandidate`; `found` is what its attribute yields. */
  function AddCandidateStep(c: Conn, init: CandidateInit, found: Option<Option<Candidate>>): (Conn, Outcome) {
    if c.remoteSessionInfo.None? then (c, Rejected(InvalidStateError))
    else
      match found
      case None => (c, Rejected(SyntaxError))
      case Some(None) => (c, Stalled)
      case Some(Some(cand)) =>
        var remote := c.remoteSessionInfo.value;
        var i := init.sdpMLineIndex;
        if !(0 <= i < |remote.media|) then (c, Rejected(SyntaxError))
        else if remote.media[i].ice.None? then (c, Stalled)
        else
          var m := WithCandidate(remote.media[i], cand);
          (c.(remoteSessionInfo := Some(remote.(media := remote.media[i := m]))), Resolved(None))
  }

  // ---------------------------------------------------------------------
  // createOffer and createAnswer (bridge/client/webrtc.js:1737-1923)

  /** A description written out; the turn stalls when there is none,
      because building it threw. */
  function Written(c: Conn, descType: string, s: Option<Session>, sessionId: string): (Conn, Outcome) {
    if s.None? then (c, Stalled)
    else (c, Resolved(Some(Description(descType, GenerateSpec(s.value, sessionId)))))
  }

  /** `createOffer`: the offer snapshot written out. */
  ghost function OfferStep(c: Conn, options: OfferOptions, tracks: seq<TrackInfo>, hasDataChannels: bool,
                           cname: string, id: Identity, e: Entropy): (Conn, Outcome)
  {
    Written(c, "offer", Some(OfferSnapshot(c.localSessionInfo, tracks, options, hasDataChannels, cname, id, e)),
            e.sessionId)
  }

  /** `createAnswer`: rejected without a remote description, otherwise the
      answer written out (stalling when one of its lines cannot be
      written). */
  ghost function AnswerStep(c: Conn, tracks: seq<TrackInfo>, cname: string, id: Identity, e: Entropy)
    : (Conn, Outcome)
  {
    if c.remoteSessionInfo.None? then (c, Rejected(InvalidStateError))
    else Written(c, "answer", AnswerSpec(c.localSessionInfo, c.remoteSessionInfo.value, tracks, cname, id, e),
                 e.sessionId)
  }

  // ---------------------------------------------------------------------
  // One operation

  /** The text the turn of a set or add operation parses: the description's
      SDP, or the probe around the candidate attribute. */
  function ParsedText(op: Operation): string
    requires !op.CreateOfferOp? && !op.CreateAnswerOp?
  {
    if op.AddIceCandidateOp? then Probe(op.init.candidate) else op.description.sdp
  }

  /** The turn of a set or add operation once its text is parsed. */
  function ParsedStep(c: Conn, op: Operation, parsed: Session): (Conn, Outcome)
    requires !op.CreateOfferOp? && !op.CreateAnswerOp?
  {
    if op.SetLocalOp? then SetLocalStep(c, op.description.descType, parsed)
    else if op.SetRemoteOp? then SetRemoteStep(c, op.description.descType, parsed)
    else AddCandidateStep(c, op.init, FirstCandidate(parsed))
  }

  /** The state after an operation's turn, and its outcome; `tracks` are
      the local tracks, `e` the random draws of this turn. */
  ghost function Execute(c: Conn, op: Operation, tracks: seq<TrackInfo>, hasDataChannels: bool,
                         cname: string, id: Identity, e: Entropy): (Conn, Outcome)
  {
    if op.CreateOfferOp? then OfferStep(c, op.options, tracks, hasDataChannels, cname, id, e)
    else if op.CreateAnswerOp? then AnswerStep(c, tracks, cname, id, e)
    else ParsedStep(c, op, ParseSpec(ParsedText(op)))
  }

  /** An answer can be written: its SSRC draws end for every remote line. */
  ghost predicate CanDraw(c: Conn, e: Entropy) {
    c.remoteSessionInfo.Some? ==> FreshSource(e, c.remoteSessionInfo.value.media)
  }

  /** The operation's turn, with the loops the source runs. */
  method RunOperation(c: Conn, op: Operation, tracks: seq<TrackInfo>, hasDataChannels: bool,
                      cname: string, id: Identity, e: Entropy)
    returns (next: Conn, outcome: Outcome)
    requires op.CreateAnswerOp? ==> CanDraw(c, e)
    ensures (next, outcome) == Execute(c, op, tracks, hasDataChannels, cname, id, e)
  {
    if op.CreateOfferOp? {
      next, outcome := CreateOffer(c, op.options, tracks, hasDataChannels, cname, id, e);
    } else if op.CreateAnswerOp? {
      next, outcome := CreateAnswer(c, tracks, cname, id, e);
    } else if op.SetLocalOp? {
      next, outcome := SetLocal(c, op.description);
    } else if op.SetRemoteOp? {
      next, outcome := SetRemote(c, op.description);
    } else {
      next, outcome := AddIceCandidate(c, op.init);
    }
  }

  method CreateOffer(c: Conn, options: OfferOptions, tracks: seq<TrackInfo>, hasDataChannels: bool,
                     cname: string, id: Identity, e: Entropy)
    returns (next: Conn, outcome: Outcome)
    ensures (next, outcome) == OfferStep(c, options, tracks, hasDataChannels, cname, id, e)
  {
    var s := CreateOfferSnapshot(c.localSessionInfo, tracks, options, hasDataChannels, cname, id, e);
    var text := Generate(s, e.sessionId);
    next, outcome := c, Resolved(Some(Description("offer", text)));
  }

  method CreateAnswer(c: Conn, tracks: seq<TrackInfo>, cname: string, id: Identity, e: Entropy)
    returns (next: Conn, outcome: Outcome)
    requires CanDraw(c, e)
    ensures (next, outcome) == AnswerStep(c, tracks, cname, id, e)
  {
    if c.remoteSessionInfo.None? {
      return c, Rejected(InvalidStateError);
    }
    var s := CreateAnswerSnapshot(c.localSessionInfo, c.remoteSessionInfo.value, tracks, cname, id, e);
    if s.None? {
      return c, Stalled;
    }
    var text := Generate(s.value, e.sessionId);
    next, outcome := c, Resolved(Some(Description("answer", text)));
  }

  method SetLocal(c: Conn, d: Description) returns (next: Conn, outcome: Outcome)
    ensures (next, outcome) == SetLocalStep(c, d.descType, ParseSpec(d.sdp))
  {
    if c.signalingState == Closed {
      return c, Stalled;
    }
    var target := Transition(c.signalingState, Local, d.descType);
    if target.None? {
      return c, Rejected(InvalidSessionDescriptionError);
    }
    var local := SdpReader.Parse(d.sdp);
    next, outcome := c.(signalingState := target.value, localSessionInfo := Some(local)), Resolved(None);
  }

  method SetRemote(c: Conn, d: Description) returns (next: Conn, outcome: Outcome)
    ensures (next, outcome) == SetRemoteStep(c, d.descType, ParseSpec(d.sdp))
  {
    if c.signalingState == Closed {
      return c, Stalled;
    }
    var target := Transition(c.signalingState, Remote, d.descType);
    if target.None? {
      return c, Rejected(InvalidSessionDescriptionError);
    }
    var parsed := SdpReader.Parse(d.sdp);
    var lines, canTrickle := NormalizeRemote(parsed.media);
    var filtered, ok := FilterRemoteLines(lines);
    var remote := parsed.(media := filtered);
    if !ok {
      return c.(remoteSessionInfo := Some(remote)), Stalled;
    }
    next := c.(signalingState := target.value, remoteSessionInfo := Some(remote),
               canTrickleIceCandidates := Some(canTrickle));
    outcome := Resolved(None);
  }

  /** Reads the candidate out of the attribute text. */
  method ReadCandidate(attr: string) returns (found: Option<Option<Candidate>>)
    ensures found == FirstCandidate(ParseSpec(Probe(attr)))
  {
    var probe := SdpReader.Parse(Probe(attr));
    found := FirstCandidate(probe);
  }

  method AddIceCandidate(c: Conn, init: CandidateInit) returns (next: Conn, outcome: Outcome)
    ensures (next, outcome) == AddCandidateStep(c, init, FirstCandidate(ParseSpec(Probe(init.candidate))))
  {
    if c.remoteSessionInfo.None? {
      return c, Rejected(InvalidStateError);
    }
    var found := ReadCandidate(init.candidate);
    next, outcome := AddFound(c, init, found);
  }

  /** The turn of `addIceCandidate` once its attribute has been read. */
  method AddFound(c: Conn, init: CandidateInit, found: Option<Option<Candidate>>)
    returns (next: Conn, outcome: Outcome)
    requires c.remoteSessionInfo.Some?
    ensures (next, outcome) == AddCandidateStep(c, init, found)
  {
    if found.None? {
      return c, Rejected(SyntaxError);
    }
    if found.value.None? {
      return c, Stalled;
    }
    var cand := found.value.value;
    var remote := c.remoteSessionInfo.value;
    var i := init.sdpMLineIndex;
    if !(0 <= i < |remote.media|) {
      return c, Rejected(SyntaxError);
    }
    if remote.media[i].ice.None? {
      return c, Stalled;
    }
    var m := WithCandidate(remote.media[i], cand);
    next := c.(remoteSessionInfo := Some(remote.(media := remote.media[i := m])));
    outcome := Resolved(None);
  }
}
