/** The session description `createOffer` writes (bridge/client/webrtc.js:1740-1806):
    a copy of the local description, its lines rebound to the local tracks,
    then a sending line for every track left over, the receive-only lines
    the options ask for, and a data line when channels exist and no line
    carries them yet. Every line it adds offers both DTLS roles. */
module Offer {
  import opened Wrappers
  import opened SdpTypes
  import opened Defaults
  import opened Reconcile
  import opened LocalParams

  /** `RTCOfferOptions`; a boolean member counts as 0 or 1. */
  datatype OfferOptions = OfferOptions(offerToReceiveAudio: int, offerToReceiveVideo: int)

  /** `+n || 0` used as the bound of a counting loop. */
  function Count(n: int): (c: nat)
    ensures n > 0 ==> c == n
    ensures n <= 0 ==> c == 0
  {
    if n > 0 then n else 0
  }

  /** `{ "mediaDescriptions": [] }`, the snapshot when no local description
      is set. */
  function EmptySession(): Session {
    Session(None, None, None, None, None, [])
  }

  /** The SCTP port of the data line, also its format. */
  const SctpPort: nat := 5000

  /** The line that sends a track left without one; `i` is its position. */
  function SendLine(t: TrackInfo, i: nat, cname: string, id: Identity, e: Entropy): MediaDescription {
    EmptyMedia(t.kind).(
      mediaStreamId := Some(t.streamId),
      mediaStreamTrackId := Some(t.trackId),
      payloads := Some(DefaultPayloads(t.kind)),
      rtcp := Some(Rtcp(None, None, None, true)),
      ssrcs := Some([e.ssrc(i)(0)]),
      cname := Some(cname),
      ice := Some(NewIce(e, i, true)),
      dtls := Some(LocalDtls(id, ActPass)))
  }

  /** A line asked for by `offerToReceiveAudio` or `offerToReceiveVideo`:
      no track, no ICE credentials. */
  function ReceiveLine(t: MediaType, id: Identity): MediaDescription {
    EmptyMedia(t).(
      payloads := Some(DefaultPayloads(t)),
      rtcp := Some(Rtcp(None, None, None, true)),
      dtls := Some(LocalDtls(id, ActPass)),
      mode := Some(RecvOnly))
  }

  /** The line for the data channels; `i` is its position. */
  function DataLine(i: nat, id: Identity, e: Entropy): MediaDescription {
    EmptyMedia(Application).(
      protocol := Some("DTLS/SCTP"),
      fmt := Some(SctpPort),
      ice := Some(NewIce(e, i, true)),
      dtls := Some(LocalDtls(id, ActPass)),
      sctp := Some(Sctp(Some(SctpPort), Some("webrtc-datachannel"), Some(1024))))
  }

  /** The sending lines for `ts`, the first at position `start`. */
  function SendLines(ts: seq<TrackInfo>, start: nat, cname: string, id: Identity, e: Entropy)
    : (ms: seq<MediaDescription>)
    ensures |ms| == |ts|
  {
    seq(|ts|, j requires 0 <= j < |ts| => SendLine(ts[j], start + j, cname, id, e))
  }

  function Receivers(t: MediaType, n: nat, id: Identity): (ms: seq<MediaDescription>)
    ensures |ms| == n
  {
    seq(n, _ => ReceiveLine(t, id))
  }

  predicate IsApplication(m: MediaDescription) {
    m.media == Application
  }

  /** `indexOfByProperty(lines, "type", "application") != -1`. */
  predicate HasApplication(ms: seq<MediaDescription>) {
    FirstIndex(ms, IsApplication) != -1
  }

  /** The description the offer is generated from. */
  function OfferSnapshot(local: Option<Session>, tracks: seq<TrackInfo>, options: OfferOptions,
                         hasDataChannels: bool, cname: string, id: Identity, e: Entropy): Session {
    var base := local.GetOr(EmptySession());
    var (lines, left) := Reconciled(base.media, tracks);
    var receiving := lines + AddedLines(left, |lines|, options, cname, id, e);
    var data := if hasDataChannels && !HasApplication(receiving) then [DataLine(|receiving|, id, e)] else [];
    base.(media := receiving + data)
  }

  /** The sending lines for the tracks left over, then the receive-only
      lines. */
  function AddedLines(left: seq<TrackInfo>, start: nat, options: OfferOptions,
                      cname: string, id: Identity, e: Entropy): seq<MediaDescription> {
    SendLines(left, start, cname, id, e)
      + Receivers(Audio, Count(options.offerToReceiveAudio), id)
      + Receivers(Video, Count(options.offerToReceiveVideo), id)
  }

  /** The offer's construction as the source performs it: rebinding the
      copied lines, then pushing the new lines one by one. */
  method CreateOfferSnapshot(local: Option<Session>, tracks: seq<TrackInfo>, options: OfferOptions,
                             hasDataChannels: bool, cname: string, id: Identity, e: Entropy)
    returns (snapshot: Session)
    ensures snapshot == OfferSnapshot(local, tracks, options, hasDataChannels, cname, id, e)
  {
    var base := if local.Some? then local.value else EmptySession();
    var lines, left := UpdateMediaDescriptionsWithTracks(base.media, tracks);
    var media := AddSendLines(lines, left, cname, id, e);
    media := AddReceivers(media, Audio, Count(options.offerToReceiveAudio), id);
    media := AddReceivers(media, Video, Count(options.offerToReceiveVideo), id);
    assert media == lines + AddedLines(left, |lines|, options, cname, id, e);
    media := AddDataLine(media, hasDataChannels, id, e);
    snapshot := base.(media := media);
  }

  /** The loop over the tracks left over, pushing a sending line for each. */
  method AddSendLines(lines: seq<MediaDescription>, left: seq<TrackInfo>, cname: string, id: Identity, e: Entropy)
    returns (media: seq<MediaDescription>)
    ensures media == lines + SendLines(left, |lines|, cname, id, e)
  {
    media := lines;
    for j := 0 to |left|
      invariant media == lines + SendLines(left[..j], |lines|, cname, id, e)
    {
      assert SendLines(left[..j + 1], |lines|, cname, id, e)
        == SendLines(left[..j], |lines|, cname, id, e) + [SendLine(left[j], |lines| + j, cname, id, e)];
      media := media + [SendLine(left[j], |media|, cname, id, e)];
    }
    assert left[..|left|] == left;
  }

  /** The data line, pushed when channels exist and no line carries them. */
  method AddDataLine(media: seq<MediaDescription>, hasDataChannels: bool, id: Identity, e: Entropy)
    returns (out: seq<MediaDescription>)
    ensures out == media + if hasDataChannels && !HasApplication(media) then [DataLine(|media|, id, e)] else []
  {
    out := media;
    if hasDataChannels {
      var at := IndexOf(media, IsApplication);
      if at == -1 {
        out := media + [DataLine(|media|, id, e)];
      }
    }
  }

  /** The counting loop for one kind of receive-only line. */
  method AddReceivers(media: seq<MediaDescription>, t: MediaType, n: nat, id: Identity)
    returns (out: seq<MediaDescription>)
    ensures out == media + Receivers(t, n, id)
  {
    out := media;
    for i := 0 to n
      invariant out == media + Receivers(t, i, id)
    {
      assert Receivers(t, i + 1, id) == Receivers(t, i, id) + [ReceiveLine(t, id)];
      out := out + [ReceiveLine(t, id)];
    }
  }

  // ---------------------------------------------------------------------
  // Properties

  /** The lines of the local description stay in place, in order, changed
      only in their track binding and direction; the session fields are
      those of the local description. */
  lemma OfferKeepsLines(local: Option<Session>, tracks: seq<TrackInfo>, options: OfferOptions,
                        hasDataChannels: bool, cname: string, id: Identity, e: Entropy)
    ensures var s := OfferSnapshot(local, tracks, options, hasDataChannels, cname, id, e);
      var base := local.GetOr(EmptySession());
      |s.media| >= |base.media|
      && (forall k :: 0 <= k < |base.media| ==> Unbound(s.media[k]) == Unbound(base.media[k]))
      && s.(media := []) == base.(media := [])
  {
    var base := local.GetOr(EmptySession());
    ReconciledKeepsLines(base.media, tracks);
  }

  /** Tracks of a media stream are audio or video. */
  predicate AvTracks(ts: seq<TrackInfo>) {
    forall j :: 0 <= j < |ts| ==> ts[j].kind != Application
  }

  /** One line per old line and per leftover track, one per requested
      receiver, and one data line exactly when channels exist and the
      local description has no data line yet. */
  lemma OfferLineCount(local: Option<Session>, tracks: seq<TrackInfo>, options: OfferOptions,
                       hasDataChannels: bool, cname: string, id: Identity, e: Entropy)
    requires AvTracks(tracks)
    ensures var s := OfferSnapshot(local, tracks, options, hasDataChannels, cname, id, e);
      var base := local.GetOr(EmptySession());
      |s.media| == |base.media| + |Reconciled(base.media, tracks).1|
        + Count(options.offerToReceiveAudio) + Count(options.offerToReceiveVideo)
        + (if hasDataChannels && !HasApplication(base.media) then 1 else 0)
  {
    var base := local.GetOr(EmptySession());
    var (lines, left) := Reconciled(base.media, tracks);
    ReconciledKeepsLines(base.media, tracks);
    LeftoverAv(base.media, tracks);
    var added := AddedLines(left, |lines|, options, cname, id, e);
    AddedNotData(left, |lines|, options, cname, id, e);
    var receiving := lines + added;
    forall k | 0 <= k < |base.media|
      ensures receiving[k].media == base.media[k].media
    {
      assert Unbound(lines[k]) == Unbound(base.media[k]);
    }
    ApplicationKept(base.media, receiving);
  }

  /** The tracks left over are some of the tracks. */
  lemma LeftoverAv(ms: seq<MediaDescription>, tracks: seq<TrackInfo>)
    requires AvTracks(tracks)
    ensures AvTracks(Reconciled(ms, tracks).1)
  {
    var kept := Pass(ms, tracks, KeepStep);
    PassShrinks(ms, tracks, KeepStep);
    PassShrinks(kept.0, kept.1, BindStep);
    var left := Reconciled(ms, tracks).1;
    forall j | 0 <= j < |left|
      ensures left[j].kind != Application
    {
      assert left[j] in left;
    }
  }

  /** No added line is a data line. */
  lemma AddedNotData(left: seq<TrackInfo>, start: nat, options: OfferOptions,
                     cname: string, id: Identity, e: Entropy)
    requires AvTracks(left)
    ensures var added := AddedLines(left, start, options, cname, id, e);
      forall k :: 0 <= k < |added| ==> added[k].media != Application
  {
  }

  /** The new lines are not data lines, so the copied lines decide
      whether a data line is still missing. */
  lemma ApplicationKept(ms: seq<MediaDescription>, ns: seq<MediaDescription>)
    requires |ns| >= |ms|
    requires forall k :: 0 <= k < |ms| ==> ns[k].media == ms[k].media
    requires forall k :: |ms| <= k < |ns| ==> ns[k].media != Application
    ensures HasApplication(ns) <==> HasApplication(ms)
  {
    var i := FirstIndex(ms, IsApplication);
    var j := FirstIndex(ns, IsApplication);
    if i != -1 {
      assert IsApplication(ns[i]);
    }
    if j != -1 {
      assert IsApplication(ms[j]);
    }
  }

  /** With non-empty track ids, every local track is bound to exactly one
      line of the offer: the ids the lines carry are the track ids, each
      as often as it occurs among the tracks. */
  lemma OfferBindsEveryTrack(local: Option<Session>, tracks: seq<TrackInfo>, options: OfferOptions,
                             hasDataChannels: bool, cname: string, id: Identity, e: Entropy)
    requires NonEmptyIds(tracks)
    ensures multiset(BoundIds(OfferSnapshot(local, tracks, options, hasDataChannels, cname, id, e).media))
      == multiset(Ids(tracks))
  {
    var base := local.GetOr(EmptySession());
    var (lines, left) := Reconciled(base.media, tracks);
    ReconciledBindsOnce(base.media, tracks);
    var receiving := lines + AddedLines(left, |lines|, options, cname, id, e);
    var data := if hasDataChannels && !HasApplication(receiving) then [DataLine(|receiving|, id, e)] else [];
    AddedBinds(left, |lines|, options, cname, id, e);
    UnboundLines(data);
    BoundIdsAppend(lines, AddedLines(left, |lines|, options, cname, id, e));
    BoundIdsAppend(receiving, data);
  }

  /** The added lines carry the leftover tracks, in order, and nothing else. */
  lemma AddedBinds(left: seq<TrackInfo>, start: nat, options: OfferOptions,
                   cname: string, id: Identity, e: Entropy)
    ensures BoundIds(AddedLines(left, start, options, cname, id, e)) == Ids(left)
  {
    var sends := SendLines(left, start, cname, id, e);
    var audio := Receivers(Audio, Count(options.offerToReceiveAudio), id);
    var video := Receivers(Video, Count(options.offerToReceiveVideo), id);
    SendLinesBind(left, start, cname, id, e);
    UnboundLines(audio);
    UnboundLines(video);
    BoundIdsAppend(sends, audio);
    BoundIdsAppend(sends + audio, video);
  }

  lemma {:induction false} SendLinesBind(ts: seq<TrackInfo>, start: nat, cname: string, id: Identity, e: Entropy)
    ensures BoundIds(SendLines(ts, start, cname, id, e)) == Ids(ts)
    decreases |ts|
  {
    if ts != [] {
      var ms := SendLines(ts, start, cname, id, e);
      assert ms[1..] == SendLines(ts[1..], start + 1, cname, id, e);
      SendLinesBind(ts[1..], start + 1, cname, id, e);
      assert Ids(ts) == [ts[0].trackId] + Ids(ts[1..]);
    }
  }

  lemma {:induction false} UnboundLines(ms: seq<MediaDescription>)
    requires forall k :: 0 <= k < |ms| ==> ms[k].mediaStreamTrackId.None?
    ensures BoundIds(ms) == []
    decreases |ms|
  {
    if ms != [] {
      UnboundLines(ms[1..]);
    }
  }

  /** The added lines: the sending lines carry their tracks and trickle
      ICE credentials, the receive-only lines no track, audio first; all
      offer both DTLS roles. */
  lemma AddedShape(left: seq<TrackInfo>, start: nat, options: OfferOptions,
                   cname: string, id: Identity, e: Entropy)
    ensures var added := AddedLines(left, start, options, cname, id, e);
      var a := Count(options.offerToReceiveAudio);
      var v := Count(options.offerToReceiveVideo);
      && |added| == |left| + a + v
      && (forall k :: 0 <= k < |added| ==> added[k].dtls == Some(LocalDtls(id, ActPass)))
      && (forall j :: 0 <= j < |left| ==>
            added[j].mediaStreamTrackId == Some(left[j].trackId)
            && added[j].ice.Some? && added[j].ice.value.trickle)
      && (forall k :: |left| <= k < |added| ==>
            added[k].mode == Some(RecvOnly) && added[k].mediaStreamTrackId.None?
            && added[k].media == (if k < |left| + a then Audio else Video))
  {
  }

  /** The offer is the copied lines, the added lines, and perhaps the data
      line. */
  lemma OfferParts(local: Option<Session>, tracks: seq<TrackInfo>, options: OfferOptions,
                   hasDataChannels: bool, cname: string, id: Identity, e: Entropy)
    ensures var s := OfferSnapshot(local, tracks, options, hasDataChannels, cname, id, e);
      var base := local.GetOr(EmptySession());
      var (lines, left) := Reconciled(base.media, tracks);
      var added := AddedLines(left, |lines|, options, cname, id, e);
      && |lines| == |base.media|
      && |s.media| >= |lines| + |added|
      && (forall k :: 0 <= k < |added| ==> s.media[|lines| + k] == added[k])
      && (forall k :: |lines| + |added| <= k < |s.media| ==> s.media[k] == DataLine(|lines| + |added|, id, e))
  {
    var base := local.GetOr(EmptySession());
    ReconciledKeepsLines(base.media, tracks);
  }

  /** Every line the offer adds offers both DTLS roles with the local
      identity. */
  lemma OfferNewLinesActPass(local: Option<Session>, tracks: seq<TrackInfo>, options: OfferOptions,
                             hasDataChannels: bool, cname: string, id: Identity, e: Entropy)
    ensures var s := OfferSnapshot(local, tracks, options, hasDataChannels, cname, id, e);
      var base := local.GetOr(EmptySession());
      forall k :: |base.media| <= k < |s.media| ==> s.media[k].dtls == Some(LocalDtls(id, ActPass))
  {
    var base := local.GetOr(EmptySession());
    var (lines, left) := Reconciled(base.media, tracks);
    OfferParts(local, tracks, options, hasDataChannels, cname, id, e);
    AddedShape(left, |lines|, options, cname, id, e);
    var s := OfferSnapshot(local, tracks, options, hasDataChannels, cname, id, e);
    var added := AddedLines(left, |lines|, options, cname, id, e);
    forall k | |base.media| <= k < |s.media|
      ensures s.media[k].dtls == Some(LocalDtls(id, ActPass))
    {
      if k < |lines| + |added| {
        assert s.media[|lines| + (k - |lines|)] == added[k - |lines|];
      }
    }
  }

  /** After the copied lines come the sending lines, one per leftover
      track, each carrying its track and trickle ICE credentials; then the
      receive-only lines without a track, the audio ones first, as many of
      each kind as asked for. */
  lemma OfferAddedLines(local: Option<Session>, tracks: seq<TrackInfo>, options: OfferOptions,
                        hasDataChannels: bool, cname: string, id: Identity, e: Entropy)
    ensures var s := OfferSnapshot(local, tracks, options, hasDataChannels, cname, id, e);
      var base := local.GetOr(EmptySession());
      var left := Reconciled(base.media, tracks).1;
      var sent := |base.media| + |left|;
      var a := Count(options.offerToReceiveAudio);
      var v := Count(options.offerToReceiveVideo);
      sent + a + v <= |s.media|
      && (forall j :: 0 <= j < |left| ==>
            s.media[|base.media| + j].mediaStreamTrackId == Some(left[j].trackId)
            && s.media[|base.media| + j].ice.Some? && s.media[|base.media| + j].ice.value.trickle)
      && (forall k :: sent <= k < sent + a + v ==>
            s.media[k].mode == Some(RecvOnly) && s.media[k].mediaStreamTrackId.None?
            && s.media[k].media == (if k < sent + a then Audio else Video))
  {
    var base := local.GetOr(EmptySession());
    var (lines, left) := Reconciled(base.media, tracks);
    OfferParts(local, tracks, options, hasDataChannels, cname, id, e);
    AddedShape(left, |lines|, options, cname, id, e);
    var s := OfferSnapshot(local, tracks, options, hasDataChannels, cname, id, e);
    Placed(s.media, |lines|, AddedLines(left, |lines|, options, cname, id, e), left,
           Count(options.offerToReceiveAudio), Count(options.offerToReceiveVideo));
  }

  /** The shape of the added lines, read at their place in the offer. */
  lemma Placed(media: seq<MediaDescription>, start: nat, added: seq<MediaDescription>,
               left: seq<TrackInfo>, a: nat, v: nat)
    requires start + |added| <= |media|
    requires forall k :: 0 <= k < |added| ==> media[start + k] == added[k]
    requires |added| == |left| + a + v
    requires forall j :: 0 <= j < |left| ==>
      added[j].mediaStreamTrackId == Some(left[j].trackId)
      && added[j].ice.Some? && added[j].ice.value.trickle
    requires forall k :: |left| <= k < |added| ==>
      added[k].mode == Some(RecvOnly) && added[k].mediaStreamTrackId.None?
      && added[k].media == (if k < |left| + a then Audio else Video)
    ensures var sent := start + |left|;
      sent + a + v <= |media|
      && (forall j :: 0 <= j < |left| ==>
            media[start + j].mediaStreamTrackId == Some(left[j].trackId)
            && media[start + j].ice.Some? && media[start + j].ice.value.trickle)
      && (forall k :: sent <= k < sent + a + v ==>
            media[k].mode == Some(RecvOnly) && media[k].mediaStreamTrackId.None?
            && media[k].media == (if k < sent + a then Audio else Video))
  {
    forall k | start + |left| <= k < start + |left| + a + v
      ensures media[k] == added[k - start]
    {
      assert media[start + (k - start)] == added[k - start];
    }
  }

  /** Channels exist ==> the offer has a data line. */
  lemma OfferCarriesData(local: Option<Session>, tracks: seq<TrackInfo>, options: OfferOptions,
                         cname: string, id: Identity, e: Entropy)
    ensures HasApplication(OfferSnapshot(local, tracks, options, true, cname, id, e).media)
  {
    var s := OfferSnapshot(local, tracks, options, true, cname, id, e);
    var base := local.GetOr(EmptySession());
    var (lines, left) := Reconciled(base.media, tracks);
    var receiving := lines + AddedLines(left, |lines|, options, cname, id, e);
    if HasApplication(receiving) {
      var i := FirstIndex(receiving, IsApplication);
      assert s.media[i] == receiving[i];
      assert IsApplication(s.media[i]);
    } else {
      assert IsApplication(s.media[|receiving|]);
    }
  }
}
