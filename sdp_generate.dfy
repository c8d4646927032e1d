/** SDP.generate (bridge/client/webrtc.js:1003-1160): the session object
    written out as SDP text through the codec's templates. Every template
    is filled in the source's order: the session block with the session,
    the originator and the msid-semantic line, then per media description
    the media block with the description and, in turn, the payload, rtcp,
    source, ICE, DTLS and SCTP line groups. One step departs from the code:
    the format list of the media line is accumulated with the corrected
    `MediaFormats.Step`, which keeps a leading payload type 0 that the
    code's `MediaFormats.StepAsWritten` drops (`PayloadsFmtAsWritten` says
    where the two agree).

    The specification functions say what each step produces; the methods
    are the loops of the source, each proved to produce it. The random
    session id of a missing originator is a parameter. */
module SdpGenerate {
  import opened Wrappers
  import opened Template
  import opened SdpTypes
  import opened RtpAttrs
  import opened SourceAttrs
  import opened IceAttrs
  import opened DtlsAttrs
  import opened MediaFormats
  import opened Seqs

  // ---------------------------------------------------------------------
  // Templates (bridge/client/webrtc.js:686-713)

  /** The `sdp` template. */
  function SdpTemplate(): Tmpl {
    Append(Line(Lit("v=", Slot("", "version", "", End))),
    Append(Line(OriginSlots()),
    Append(Line(Lit("s=", Slot("", "sessionName", "", End))),
    Append(Line(TimingSlots()),
      Slot("", "msidsemanticLine", "", End)))))
  }

  function OriginSlots(): Tmpl {
    Lit("o=", Slot("", "username", "", Lit(" ", Slot("", "sessionId", "", Lit(" ",
      Slot("", "sessionVersion", "", Lit(" ", Slot("", "netType", "", Lit(" ",
      Slot("", "addressType", "", Lit(" ", Slot("", "address", "", End))))))))))))
  }

  function TimingSlots(): Tmpl {
    Lit("t=", Slot("", "startTime", "", Lit(" ", Slot("", "stopTime", "", End))))
  }

  /** The `msidsemantic` template. */
  function MsidSemanticTemplate(): Tmpl {
    Line(Lit("a=msid-semantic:WMS ", Slot("", "mediaStreamIds", "", End)))
  }

  /** The `mblock` template: the media line, the connection line, the
      optional rtcp lines, the direction line, then one placeholder per
      group of attribute lines. */
  function MblockTemplate(): Tmpl {
    Append(Line(MediaLineSlots()),
    Append(Line(ConnectionSlots()),
    Append(RtcpGroupSlots(),
    Append(Line(ModeSlots()),
    Append(PayloadGroupSlots(),
    Append(SourceGroupSlots(),
    Append(IceGroupSlots(),
      TransportGroupSlots())))))))
  }

  function MediaLineSlots(): Tmpl {
    Lit("m=", Slot("", "type", "", Lit(" ", Slot("", "port", "", Lit(" ",
      Slot("", "protocol", "", Lit(" ", Slot("", "fmt", "", End))))))))
  }

  function ConnectionSlots(): Tmpl {
    Lit("c=", Slot("", "netType", "", Lit(" ", Slot("", "addressType", "", Lit(" ",
      Slot("", "address", "", End))))))
  }

  function RtcpGroupSlots(): Tmpl {
    Slot("", "rtcpLine", "", Slot("", "rtcpMuxLine", "", End))
  }

  function ModeSlots(): Tmpl {
    Lit("a=", Slot("", "mode", "", End))
  }

  function PayloadGroupSlots(): Tmpl {
    Slot("", "rtpMapLines", "", Slot("", "fmtpLines", "", Slot("", "nackLines", "",
      Slot("", "nackpliLines", "", Slot("", "ccmfirLines", "", Slot("", "ericScreamLines", "", End))))))
  }

  function SourceGroupSlots(): Tmpl {
    Slot("", "cnameLines", "", Slot("", "msidLines", "", End))
  }

  function IceGroupSlots(): Tmpl {
    Slot("", "iceCredentialLines", "", Slot("", "iceOptionLine", "", Slot("", "candidateLines", "", End)))
  }

  function TransportGroupSlots(): Tmpl {
    Slot("", "dtlsFingerprintLine", "", Slot("", "dtlsSetupLine", "", Slot("", "sctpmapLine", "", End)))
  }

  // ---------------------------------------------------------------------
  // The objects the templates are filled with. Properties of the source
  // objects that name no placeholder of the template are left out: a key
  // with no placeholder leaves the text as it is.

  /** JavaScript truthiness of an optional string and an optional number. */
  predicate Truthy(o: Option<string>) {
    o.Some? && o.value != ""
  }

  predicate TruthyNum(o: Option<nat>) {
    o.Some? && o.value != 0
  }

  /** The session after its defaults (version 0, session name "-", times 0). */
  function SessionInfo(s: Session): Info {
    Entry("version", NumValue(s.version.GetOr(0)),
    Entry("sessionName", Text(s.sessionName.GetOr("-")),
    Entry("startTime", NumValue(s.startTime.GetOr(0)),
    Entry("stopTime", NumValue(s.stopTime.GetOr(0)), Done))))
  }

  const NoOriginator: Originator := Originator(None, None, None, None, None)

  /** The originator after its defaults; `sessionId` stands for the id the
      source derives from the clock and a random number. */
  function OriginInfo(o: Option<Originator>, sessionId: string): Info {
    var x := o.GetOr(NoOriginator);
    Entry("username", Text(x.username.GetOr("-")),
    Entry("sessionId", Text(x.sessionId.GetOr(sessionId)),
    Entry("sessionVersion", NumValue(x.sessionVersion.GetOr(1)),
    Entry("netType", Text("IN"),
    Entry("addressType", Text(x.addressType.GetOr("IP4")),
    Entry("address", Text(x.address.GetOr("127.0.0.1")), Done))))))
  }

  /** The stream ids of the descriptions that carry both a stream and a
      track id, each once, in order of first appearance. */
  function StreamIds(media: seq<MediaDescription>): seq<string> {
    if media == [] then []
    else
      var ids := StreamIds(media[..|media| - 1]);
      var m := media[|media| - 1];
      if Truthy(m.mediaStreamId) && Truthy(m.mediaStreamTrackId) && m.mediaStreamId.value !in ids
      then ids + [m.mediaStreamId.value]
      else ids
  }

  /** The `a=msid-semantic` line, or nothing when no description carries
      stream ids. */
  function MsidSemanticLine(media: seq<MediaDescription>): string {
    var ids := StreamIds(media);
    if ids == [] then ""
    else Fill(Flatten(MsidSemanticTemplate()), Entry("mediaStreamIds", Text(JoinSpaced(ids)), Done))
  }

  /** The session block: the `sdp` template filled with the session, the
      originator and the msid-semantic line. */
  function SessionBlock(s: Session, sessionId: string): string {
    var t0 := Fill(Flatten(SdpTemplate()), SessionInfo(s));
    var t1 := Fill(t0, OriginInfo(s.originator, sessionId));
    Fill(t1, Entry("msidsemanticLine", Text(MsidSemanticLine(s.media)), Done))
  }

  /** A media description after its defaults (port 9, the DTLS-SRTP
      protocol, address 0.0.0.0, direction sendrecv). */
  function MdescInfo(m: MediaDescription): Info {
    Entry("type", Text(MediaTypeName(m.media)),
    Entry("port", NumValue(m.port.GetOr(9)),
    Entry("protocol", Text(m.protocol.GetOr("UDP/TLS/RTP/SAVPF")),
    MaybeNum("fmt", m.fmt,
    Entry("netType", Text("IN"),
    Entry("addressType", Text(m.addressType.GetOr("IP4")),
    Entry("address", Text(m.address.GetOr("0.0.0.0")),
    Entry("mode", Text(ModeName(m.mode.GetOr(SendRecv))), Done))))))))
  }

  /** The concatenation of `f` over `xs`, as a `forEach` that appends. */
  function Each<T>(xs: seq<T>, f: T -> string): string {
    if xs == [] then "" else Each(xs[..|xs| - 1], f) + f(xs[|xs| - 1])
  }

  lemma EachSnoc<T>(xs: seq<T>, x: T, f: T -> string)
    ensures Each(xs + [x], f) == Each(xs, f) + f(x)
  {
    assert (xs + [x])[..|xs|] == xs;
  }

  // Payload lines (bridge/client/webrtc.js:1049-1081)

  function RtpMapLine(p: Payload): string {
    Fill(Flatten(RtpMapTemplate()), RtpMapInfo(p))
  }

  /** An `a=fmtp` line for a payload with parameters, else nothing. */
  function FmtpLine(p: Payload): string {
    if p.parameters.Some? then
      Fill(Flatten(FmtpTemplate()), FmtpInfo(p.payloadType, ParamsText(p.parameters.value)))
    else ""
  }

  function FeedbackLine(p: Payload, on: bool, kind: string): string {
    if on then Fill(Flatten(FeedbackTemplate(kind)), RtpMapInfo(p)) else ""
  }

  function NackLine(p: Payload): string { FeedbackLine(p, p.nack, Nack) }
  function NackPliLine(p: Payload): string { FeedbackLine(p, p.nackpli, NackPli) }
  function CcmFirLine(p: Payload): string { FeedbackLine(p, p.ccmfir, CcmFir) }
  function EricScreamLine(p: Payload): string { FeedbackLine(p, p.ericscream, EricScream) }

  function Types(ps: seq<Payload>): (r: seq<Option<nat>>)
    ensures |r| == |ps|
  {
    seq(|ps|, i requires 0 <= i < |ps| => ps[i].payloadType)
  }

  /** `payloadInfo` while the payload loop runs: the six line groups and
      the format list so far. */
  datatype PayloadAcc = PayloadAcc(rtpMap: string, fmtp: string, nack: string, nackPli: string,
    ccmFir: string, ericScream: string, fmt: FmtAcc)

  /** One turn of the payload loop. */
  function AddPayload(a: PayloadAcc, p: Payload): PayloadAcc {
    PayloadAcc(a.rtpMap + RtpMapLine(p), a.fmtp + FmtpLine(p), a.nack + NackLine(p),
      a.nackPli + NackPliLine(p), a.ccmFir + CcmFirLine(p), a.ericScream + EricScreamLine(p),
      Step(a.fmt, p.payloadType))
  }

  function Payloads(ps: seq<Payload>): PayloadAcc {
    if ps == [] then PayloadAcc("", "", "", "", "", "", NoFmt)
    else AddPayload(Payloads(ps[..|ps| - 1]), ps[|ps| - 1])
  }

  /** `payloadInfo`: the six line groups, and the format list once there
      is a payload. */
  function PayloadStage(ps: seq<Payload>): Info {
    var a := Payloads(ps);
    Entry("rtpMapLines", Text(a.rtpMap), Entry("fmtpLines", Text(a.fmtp),
    Entry("nackLines", Text(a.nack), Entry("nackpliLines", Text(a.nackPli),
    Entry("ccmfirLines", Text(a.ccmFir), Entry("ericScreamLines", Text(a.ericScream),
      if a.fmt.NoFmt? then Done else Entry("fmt", FmtValue(a.fmt), Done)))))))
  }

  /** Each line group of the loop is the concatenation of its line over
      the payloads. */
  lemma {:induction false} PayloadsEach(ps: seq<Payload>)
    ensures Payloads(ps).rtpMap == Each(ps, RtpMapLine)
    ensures Payloads(ps).fmtp == Each(ps, FmtpLine)
    ensures Payloads(ps).nack == Each(ps, NackLine)
    ensures Payloads(ps).nackPli == Each(ps, NackPliLine)
    ensures Payloads(ps).ccmFir == Each(ps, CcmFirLine)
    ensures Payloads(ps).ericScream == Each(ps, EricScreamLine)
  {
    if ps != [] {
      PayloadsEach(ps[..|ps| - 1]);
    }
  }

  /** The format list of the loop is the fold of the payload types. */
  lemma {:induction false} PayloadsFmt(ps: seq<Payload>)
    ensures Payloads(ps).fmt == Fold(Types(ps))
  {
    if ps != [] {
      var n := |ps| - 1;
      PayloadsFmt(ps[..n]);
      assert Types(ps)[..n] == Types(ps[..n]);
    }
  }

  /** The loop as the code writes it builds the same format list whenever
      the first payload type is a number other than 0. */
  lemma {:induction false} PayloadsFmtAsWritten(ps: seq<Payload>)
    requires ps != [] && TruthyNum(ps[0].payloadType)
    ensures Payloads(ps).fmt == FoldAsWritten(Types(ps))
    ensures AccTruthy(Payloads(ps).fmt)
  {
    var n := |ps| - 1;
    if n == 0 {
      assert ps[..0] == [];
      assert Types(ps)[..0] == [];
    } else {
      PayloadsFmtAsWritten(ps[..n]);
      assert Types(ps)[..n] == Types(ps[..n]);
    }
  }

  // rtcp lines (bridge/client/webrtc.js:1084-1097)

  const NoRtcp: Rtcp := Rtcp(None, None, None, false)

  function RtcpLine(r: Rtcp): string {
    if TruthyNum(r.port) then Fill(Flatten(RtcpTemplate()), RtcpInfo(r.port.value, r.addressType, r.address))
    else ""
  }

  function RtcpStage(r: Rtcp): Info {
    Entry("rtcpLine", Text(RtcpLine(r)),
    Entry("rtcpMuxLine", Text(if r.mux then RtcpMuxText + "\r\n" else ""), Done))
  }

  // Source lines (bridge/client/webrtc.js:1099-1116)

  function CnameLine(m: MediaDescription, ssrc: nat): string {
    Fill(Flatten(CnameTemplate()), SrcInfo(m.cname, m.mediaStreamId, m.mediaStreamTrackId, Some(ssrc)))
  }

  function MsidLine(m: MediaDescription, ssrc: Option<nat>): string {
    Fill(Flatten(MsidTemplate()), SrcInfo(m.cname, m.mediaStreamId, m.mediaStreamTrackId, ssrc))
  }

  function CnameLines(m: MediaDescription, ssrcs: seq<nat>): string {
    if ssrcs == [] then "" else CnameLines(m, ssrcs[..|ssrcs| - 1]) + CnameLine(m, ssrcs[|ssrcs| - 1])
  }

  function MsidLines(m: MediaDescription, ssrcs: seq<nat>): string {
    if ssrcs == [] then ""
    else MsidLines(m, ssrcs[..|ssrcs| - 1]) + MsidLine(m, Some(ssrcs[|ssrcs| - 1]))
  }

  predicate HasStream(m: MediaDescription) {
    Truthy(m.mediaStreamId) && Truthy(m.mediaStreamTrackId)
  }

  /** A cname line per ssrc, and an msid line per ssrc when the description
      has stream ids; without a cname or ssrcs, a single msid line. */
  function SrcStage(m: MediaDescription): Info {
    if Truthy(m.cname) && m.ssrcs.Some? then
      Entry("cnameLines", Text(CnameLines(m, m.ssrcs.value)),
      Entry("msidLines", Text(if HasStream(m) then MsidLines(m, m.ssrcs.value) else ""), Done))
    else
      Entry("cnameLines", Text(""),
      Entry("msidLines", Text(if HasStream(m) then MsidLine(m, None) else ""), Done))
  }

  // ICE lines (bridge/client/webrtc.js:1118-1134)

  /** The ice object as the credentials template receives it. */
  function IceInfo(i: Ice): Info {
    Maybe("ufrag", i.ufrag, Maybe("password", i.password, Done))
  }

  function CandidateLine(c: Candidate): string {
    Fill(Flatten(CandidateTemplate()), CandidateInfo(c))
  }

  /** The `a=ice-ufrag` and `a=ice-pwd` lines. */
  function CredentialLines(i: Ice): string {
    Fill(Flatten(IceCredentialsTemplate()), IceInfo(i))
  }

  function IceStage(ice: Option<Ice>): Info {
    if ice.None? then
      Entry("iceCredentialLines", Text(""), Entry("iceOptionLine", Text(""),
      Entry("candidateLines", Text(""), Done)))
    else
      var i := ice.value;
      Entry("iceCredentialLines", Text(CredentialLines(i)),
      Entry("iceOptionLine", Text(if i.trickle then TrickleLine + "\r\n" else ""),
      Entry("candidateLines", Text(if i.candidates.Some? then Each(i.candidates.value, CandidateLine) else ""),
        Done)))
  }

  // DTLS lines (bridge/client/webrtc.js:1136-1145)

  function DtlsStage(dtls: Option<Dtls>): Info {
    if dtls.None? then
      Entry("dtlsFingerprintLine", Text(""), Entry("dtlsSetupLine", Text(""), Done))
    else
      var d := dtls.value;
      Entry("dtlsFingerprintLine",
        Text(if Truthy(d.fingerprint) then Fill(Flatten(FingerprintTemplate()), DtlsInfo(d)) else ""),
      Entry("dtlsSetupLine",
        Text(Fill(Flatten(SetupTemplate()), DtlsInfo(d.(setup := Some(WrittenSetup(d)))))), Done))
  }

  // SCTP line (bridge/client/webrtc.js:1147-1153)

  /** The sctpmap line, and the SCTP port as the format list (it fills the
      placeholder only when no payload did). */
  function SctpStage(sctp: Option<Sctp>): Info {
    if sctp.None? then
      Entry("sctpmapLine", Text(""), Entry("fmt", Text(""), Done))
    else
      Entry("sctpmapLine", Text(Fill(Flatten(SctpmapTemplate()), SctpInfo(sctp.value))),
      Entry("fmt", OptNum(sctp.value.port), Done))
  }

  /** The media block of one description: the `mblock` template filled in
      the source's order. */
  function MediaBlock(m: MediaDescription): string {
    BlockAfter(m, 7)
  }

  /** The `mblock` text after its first `n` fills. */
  function BlockAfter(m: MediaDescription, n: nat): string
    requires n <= 7
  {
    if n == 0 then Flatten(MblockTemplate()) else Fill(BlockAfter(m, n - 1), Stage(m, n - 1))
  }

  /** The media block is seven fills, one after another. */
  lemma MediaBlockSteps(m: MediaDescription)
    ensures MediaBlock(m) == Fill(Fill(Fill(Fill(Fill(Fill(Fill(Flatten(MblockTemplate()),
      MdescInfo(m)), PayloadStage(m.payloads.GetOr([]))), RtcpStage(m.rtcp.GetOr(NoRtcp))),
      SrcStage(m)), IceStage(m.ice)), DtlsStage(m.dtls)), SctpStage(m.sctp))
  {
    assert BlockAfter(m, 1) == Fill(Flatten(MblockTemplate()), MdescInfo(m));
    assert BlockAfter(m, 2) == Fill(BlockAfter(m, 1), PayloadStage(m.payloads.GetOr([])));
    assert BlockAfter(m, 3) == Fill(BlockAfter(m, 2), RtcpStage(m.rtcp.GetOr(NoRtcp)));
    assert BlockAfter(m, 4) == Fill(BlockAfter(m, 3), SrcStage(m));
    assert BlockAfter(m, 5) == Fill(BlockAfter(m, 4), IceStage(m.ice));
    assert BlockAfter(m, 6) == Fill(BlockAfter(m, 5), DtlsStage(m.dtls));
  }

  /** The object of the `n`-th fill: the description's own fields, then the
      payload, rtcp, source, ice, dtls and sctp lines. */
  function Stage(m: MediaDescription, n: nat): Info
    requires n < 7
  {
    match n
    case 0 => MdescInfo(m)
    case 1 => PayloadStage(m.payloads.GetOr([]))
    case 2 => RtcpStage(m.rtcp.GetOr(NoRtcp))
    case 3 => SrcStage(m)
    case 4 => IceStage(m.ice)
    case 5 => DtlsStage(m.dtls)
    case 6 => SctpStage(m.sctp)
  }

  /** The blocks of the descriptions, one after another. */
  function Blocks(media: seq<MediaDescription>): string {
    if media == [] then "" else Blocks(media[..|media| - 1]) + MediaBlock(media[|media| - 1])
  }

  /** The text SDP.generate returns. */
  function GenerateSpec(s: Session, sessionId: string): string {
    SessionBlock(s, sessionId) + Blocks(s.media)
  }

  // ---------------------------------------------------------------------
  // Properties of the msid-semantic stream list

  /** The stream list holds each qualifying stream id exactly once. */
  lemma {:induction false} StreamIdsDistinct(media: seq<MediaDescription>)
    ensures forall i, j :: 0 <= i < j < |StreamIds(media)| ==> StreamIds(media)[i] != StreamIds(media)[j]
  {
    if media != [] {
      StreamIdsDistinct(media[..|media| - 1]);
    }
  }

  /** A stream id is listed exactly when some description carries it
      together with a track id. */
  lemma {:induction false} StreamIdsMembers(media: seq<MediaDescription>, id: string)
    ensures id in StreamIds(media) <==>
      exists k :: 0 <= k < |media| && HasStream(media[k]) && media[k].mediaStreamId.value == id
  {
    if media != [] {
      var n := |media| - 1;
      StreamIdsMembers(media[..n], id);
      if id in StreamIds(media[..n]) {
        var k :| 0 <= k < n && HasStream(media[..n][k]) && media[..n][k].mediaStreamId.value == id;
        assert media[k] == media[..n][k];
      }
      if exists k :: 0 <= k < |media| && HasStream(media[k]) && media[k].mediaStreamId.value == id {
        var k :| 0 <= k < |media| && HasStream(media[k]) && media[k].mediaStreamId.value == id;
        if k < n {
          assert media[..n][k] == media[k];
        }
      }
    }
  }

  // ---------------------------------------------------------------------
  // The generator's loops

  /** SDP.generate. */
  method Generate(s: Session, sessionId: string) returns (text: string)
    ensures text == GenerateSpec(s, sessionId)
  {
    var head := GenerateSessionBlock(s, sessionId);
    var blocks := GenerateBlocks(s.media);
    text := head + blocks;
  }

  /** The loop over the media descriptions. */
  method GenerateBlocks(media: seq<MediaDescription>) returns (text: string)
    ensures text == Blocks(media)
  {
    text := "";
    for i := 0 to |media|
      invariant text == Blocks(media[..i])
    {
      assert media[..i + 1][..i] == media[..i];
      var block := GenerateBlock(media[i]);
      text := text + block;
    }
    assert media[..|media|] == media;
  }

  /** The session block, with its msid-semantic line. */
  method GenerateSessionBlock(s: Session, sessionId: string) returns (text: string)
    ensures text == SessionBlock(s, sessionId)
  {
    text := FillText(Flatten(SdpTemplate()), SessionInfo(s));
    text := FillText(text, OriginInfo(s.originator, sessionId));
    var ids := CollectStreamIds(s.media);
    var line := "";
    if |ids| > 0 {
      line := FillText(Flatten(MsidSemanticTemplate()), Entry("mediaStreamIds", Text(JoinSpaced(ids)), Done));
    }
    text := FillText(text, Entry("msidsemanticLine", Text(line), Done));
  }

  /** The loop gathering the msid-semantic stream ids. */
  method CollectStreamIds(media: seq<MediaDescription>) returns (ids: seq<string>)
    ensures ids == StreamIds(media)
  {
    ids := [];
    for i := 0 to |media|
      invariant ids == StreamIds(media[..i])
    {
      var m := media[i];
      assert media[..i + 1][..i] == media[..i];
      if m.mediaStreamId.Some? && m.mediaStreamId.value != "" && m.mediaStreamTrackId.Some?
        && m.mediaStreamTrackId.value != "" && m.mediaStreamId.value !in ids
      {
        ids := ids + [m.mediaStreamId.value];
      }
    }
    assert media[..|media|] == media;
  }

  /** One media description's block. */
  method GenerateBlock(m: MediaDescription) returns (block: string)
    ensures block == MediaBlock(m)
  {
    block := FillText(Flatten(MblockTemplate()), MdescInfo(m));
    var payloadInfo := PayloadLines(m.payloads.GetOr([]));
    block := FillText(block, payloadInfo);
    block := FillText(block, RtcpStage(m.rtcp.GetOr(NoRtcp)));
    var srcLines := SourceLines(m);
    block := FillText(block, srcLines);
    var iceInfo := IceLines(m.ice);
    block := FillText(block, iceInfo);
    block := FillText(block, DtlsStage(m.dtls));
    block := FillText(block, SctpStage(m.sctp));
    MediaBlockSteps(m);
  }

  /** The payload loop: six line groups and the format list. */
  method PayloadLines(ps: seq<Payload>) returns (info: Info)
    ensures info == PayloadStage(ps)
  {
    var acc := PayloadAcc("", "", "", "", "", "", NoFmt);
    for i := 0 to |ps|
      invariant acc == Payloads(ps[..i])
    {
      assert ps[..i + 1][..i] == ps[..i];
      acc := PayloadTurn(acc, ps[i]);
    }
    assert ps[..|ps|] == ps;
    info := Entry("rtpMapLines", Text(acc.rtpMap), Entry("fmtpLines", Text(acc.fmtp),
      Entry("nackLines", Text(acc.nack), Entry("nackpliLines", Text(acc.nackPli),
      Entry("ccmfirLines", Text(acc.ccmFir), Entry("ericScreamLines", Text(acc.ericScream),
        if acc.fmt == NoFmt then Done else Entry("fmt", FmtValue(acc.fmt), Done)))))));
  }

  /** The body of the payload loop. */
  method PayloadTurn(acc: PayloadAcc, p: Payload) returns (next: PayloadAcc)
    ensures next == AddPayload(acc, p)
  {
    var fmt := Step(acc.fmt, p.payloadType);
    var rtpMap := FillText(Flatten(RtpMapTemplate()), RtpMapInfo(p));
    var fmtp := "";
    if p.parameters.Some? {
      var text := JoinParams(p.parameters.value);
      fmtp := FillText(Flatten(FmtpTemplate()), FmtpInfo(p.payloadType, text));
    }
    var nack := FeedbackLines(p, p.nack, Nack);
    var nackPli := FeedbackLines(p, p.nackpli, NackPli);
    var ccmFir := FeedbackLines(p, p.ccmfir, CcmFir);
    var ericScream := FeedbackLines(p, p.ericscream, EricScream);
    next := PayloadAcc(acc.rtpMap + rtpMap, acc.fmtp + fmtp, acc.nack + nack,
      acc.nackPli + nackPli, acc.ccmFir + ccmFir, acc.ericScream + ericScream, fmt);
  }

  method FeedbackLines(p: Payload, on: bool, kind: string) returns (line: string)
    ensures line == FeedbackLine(p, on, kind)
  {
    line := "";
    if on {
      line := FillText(Flatten(FeedbackTemplate(kind)), RtpMapInfo(p));
    }
  }

  /** The fmtp parameter loop: `key=value` pairs joined with semicolons. */
  method JoinParams(ps: Params) returns (text: string)
    ensures text == ParamsText(ps)
  {
    text := "";
    for i := 0 to |ps|
      invariant text == ParamsText(ps[..i])
      invariant text == "" <==> i == 0
    {
      assert ps[..i + 1] == ps[..i] + [ps[i]];
      ParamsTextSnoc(ps[..i], ps[i]);
      ParamsTextNonEmpty(ps[..i + 1]);
      if text != "" {
        text := text + ";";
      }
      text := text + PairText(ps[i]);
    }
    assert ps[..|ps|] == ps;
  }

  /** Appending one parameter to the text. */
  lemma {:induction false} ParamsTextSnoc(ps: Params, x: (string, ParamValue))
    ensures ParamsText(ps + [x]) ==
      (if ps == [] then PairText(x) else ParamsText(ps) + ";" + PairText(x))
  {
    var xs := ps + [x];
    if |ps| == 1 {
      assert xs[0] == ps[0];
      assert xs[1..] == [x];
      assert ParamsText(xs[1..]) == PairText(x);
    } else if |ps| > 1 {
      assert xs[0] == ps[0];
      assert xs[1..] == ps[1..] + [x];
      ParamsTextSnoc(ps[1..], x);
      var head, tail, last := PairText(ps[0]), ParamsText(ps[1..]), PairText(x);
      assert ParamsText(xs) == head + (";" + (tail + ";" + last));
      assert ParamsText(ps) == head + (";" + tail);
      assert head + (";" + (tail + ";" + last)) == head + (";" + tail) + ";" + last;
    }
  }

  /** The text of a nonempty parameter list is never empty. */
  lemma ParamsTextNonEmpty(ps: Params)
    requires ps != []
    ensures ParamsText(ps) != ""
  {
    assert PairText(ps[0]) == Uncamel(ps[0].0) + "=" + ParamValueText(ps[0].1);
  }

  /** The source lines of a description. */
  method SourceLines(m: MediaDescription) returns (info: Info)
    ensures info == SrcStage(m)
  {
    var hasStream := m.mediaStreamId.Some? && m.mediaStreamId.value != ""
      && m.mediaStreamTrackId.Some? && m.mediaStreamTrackId.value != "";
    var cnameLines, msidLines := "", "";
    if m.cname.Some? && m.cname.value != "" && m.ssrcs.Some? {
      cnameLines, msidLines := WriteSources(m, m.ssrcs.value, hasStream);
    } else if hasStream {
      msidLines := FillText(Flatten(MsidTemplate()),
        SrcInfo(m.cname, m.mediaStreamId, m.mediaStreamTrackId, None));
    }
    info := Entry("cnameLines", Text(cnameLines), Entry("msidLines", Text(msidLines), Done));
  }

  /** The ssrc loop: a cname line per ssrc, and an msid line per ssrc when
      the description has stream ids. */
  method WriteSources(m: MediaDescription, ssrcs: seq<nat>, hasStream: bool)
    returns (cnameLines: string, msidLines: string)
    ensures cnameLines == CnameLines(m, ssrcs)
    ensures msidLines == if hasStream then MsidLines(m, ssrcs) else ""
  {
    cnameLines, msidLines := "", "";
    for i := 0 to |ssrcs|
      invariant cnameLines == CnameLines(m, ssrcs[..i])
      invariant msidLines == if hasStream then MsidLines(m, ssrcs[..i]) else ""
    {
      assert ssrcs[..i + 1][..i] == ssrcs[..i];
      var line := FillText(Flatten(CnameTemplate()),
        SrcInfo(m.cname, m.mediaStreamId, m.mediaStreamTrackId, Some(ssrcs[i])));
      cnameLines := cnameLines + line;
      if hasStream {
        line := FillText(Flatten(MsidTemplate()),
          SrcInfo(m.cname, m.mediaStreamId, m.mediaStreamTrackId, Some(ssrcs[i])));
        msidLines := msidLines + line;
      }
    }
    assert ssrcs[..|ssrcs|] == ssrcs;
  }

  /** The ICE lines of a description, with the candidate loop. */
  method IceLines(ice: Option<Ice>) returns (info: Info)
    ensures info == IceStage(ice)
  {
    var credentials, option, candidates := "", "", "";
    if ice.Some? {
      var i := ice.value;
      credentials := WriteCredentials(i);
      if i.trickle {
        option := TrickleLine + "\r\n";
      }
      if i.candidates.Some? {
        candidates := WriteCandidates(i.candidates.value);
      }
    }
    info := Entry("iceCredentialLines", Text(credentials), Entry("iceOptionLine", Text(option),
      Entry("candidateLines", Text(candidates), Done)));
  }
  /** The candidate loop: one `a=candidate` line per candidate, in order. */
  method WriteCandidates(cs: seq<Candidate>) returns (text: string)
    ensures text == Each(cs, CandidateLine)
  {
    text := "";
    for k := 0 to |cs|
      invariant text == Each(cs[..k], CandidateLine)
    {
      var line := WriteCandidate(cs[k]);
      EachSnoc(cs[..k], cs[k], CandidateLine);
      TakeSnoc(cs, k);
      text := text + line;
    }
    assert cs[..|cs|] == cs;
  }

  method WriteCredentials(i: Ice) returns (text: string)
    ensures text == CredentialLines(i)
  {
    text := FillText(Flatten(IceCredentialsTemplate()), IceInfo(i));
  }

  method WriteCandidate(c: Candidate) returns (line: string)
    ensures line == CandidateLine(c)
  {
    line := FillText(Flatten(CandidateTemplate()), CandidateInfo(c));
  }

}
