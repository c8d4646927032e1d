/** The text SDP.generate writes (bridge/client/webrtc.js:1003-1160), as the
    lines it is made of. When the fields of a session lie within what the
    codec's patterns read, every template fill of the generator comes out
    as whole lines, each ended by CR LF: the four session lines and the
    optional msid-semantic line, then per media description its media
    line, its connection line and its groups of attribute lines in the
    order of the `mblock` template. Module SdpRoundTrip reads these lines
    back with the parser. */
module SdpLines {
  import opened Wrappers
  import opened Chars
  import opened Template
  import opened Lines
  import opened Seqs
  import opened LineTags
  import opened SdpTypes
  import opened SessionLines
  import opened RtpAttrs
  import opened SourceAttrs
  import opened IceAttrs
  import opened DtlsAttrs
  import opened SdpGenerate
  import MediaFormats
  import SdpParse

  // ---------------------------------------------------------------------
  // Text inside one line, without `$`

  /** Text that a template fill leaves as it is and that stays on one
      line. */
  predicate Plain(s: string) {
    forall c :: c in s ==> c != '$' && !IsTerm(c)
  }

  predicate AllPlain(ls: seq<string>) {
    forall l :: l in ls ==> Plain(l)
  }

  lemma PlainFacts(s: string)
    requires Plain(s)
    ensures DollarFree(s) && NoTerm(s)
  {
    assert forall i :: 0 <= i < |s| ==> s[i] in s;
  }

  /** No character class of the codec holds `$` or a line terminator. */
  lemma ClassPlain(s: string, k: CharClass)
    requires AllIn(s, k)
    ensures Plain(s)
  {
    forall c | c in s ensures c != '$' && !IsTerm(c) {
      var i :| 0 <= i < |s| && s[i] == c;
      assert InClass(s[i], k);
    }
  }

  lemma DecimalPlain(n: nat)
    ensures Plain(Decimal(n))
  {
    ClassPlain(Decimal(n), Digit);
  }

  lemma NumTextPlain(o: Option<nat>)
    ensures Plain(NumText(o))
  {
    if o.Some? { DecimalPlain(o.value); }
  }

  lemma AllPlainCat(a: seq<string>, b: seq<string>)
    requires AllPlain(a) && AllPlain(b)
    ensures AllPlain(a + b)
  {
  }

  lemma {:induction false} FlatPlain<T>(xs: seq<T>, g: T -> seq<string>)
    requires forall i :: 0 <= i < |xs| ==> AllPlain(g(xs[i]))
    ensures AllPlain(Flat(xs, g))
  {
    forall y | y in Flat(xs, g) ensures Plain(y) {
      InFlat(xs, g, y);
    }
  }

  /** Lines without `$` make a text without `$`. */
  lemma {:induction false} CrlfDollarFree(ls: seq<string>)
    requires AllPlain(ls)
    ensures DollarFree(Crlf(ls))
  {
    if ls != [] {
      assert ls[0] in ls;
      assert AllPlain(ls[1..]) by {
        forall l | l in ls[1..] ensures Plain(l) { assert l in ls; }
      }
      CrlfDollarFree(ls[1..]);
      PlainFacts(ls[0]);
      assert DollarFree("\r\n");
      DollarFreeAppend(ls[0], "\r\n");
      DollarFreeAppend(ls[0] + "\r\n", Crlf(ls[1..]));
    }
  }

  lemma CrlfOne(x: string)
    ensures Crlf([x]) == x + "\r\n"
  {
    assert [x][1..] == [];
  }

  /** Every line of a text made of line groups. */
  lemma {:induction false} EachCrlf<T>(xs: seq<T>, f: T -> string, g: T -> seq<string>)
    requires forall i :: 0 <= i < |xs| ==> f(xs[i]) == Crlf(g(xs[i]))
    ensures Each(xs, f) == Crlf(Flat(xs, g))
  {
    if xs != [] {
      var n := |xs| - 1;
      assert forall i :: 0 <= i < n ==> xs[..n][i] == xs[i];
      EachCrlf(xs[..n], f, g);
      CrlfAppend(Flat(xs[..n], g), g(xs[n]));
    }
  }

  // ---------------------------------------------------------------------
  // The defaults the generator applies to a media description
  // (bridge/client/webrtc.js:1025-1047)

  function WrittenPort(m: MediaDescription): nat { m.port.GetOr(9) }
  function WrittenProtocol(m: MediaDescription): string { m.protocol.GetOr("UDP/TLS/RTP/SAVPF") }
  function WrittenAddressType(m: MediaDescription): string { m.addressType.GetOr("IP4") }
  function WrittenAddress(m: MediaDescription): string { m.address.GetOr("0.0.0.0") }
  function WrittenMode(m: MediaDescription): Mode { m.mode.GetOr(SendRecv) }
  function WrittenRtcp(m: MediaDescription): Rtcp { m.rtcp.GetOr(NoRtcp) }
  function WrittenPayloads(m: MediaDescription): seq<Payload> { m.payloads.GetOr([]) }

  /** The protocol of a data line. */
  const SctpProtocol: string := "DTLS/SCTP"

  // ---------------------------------------------------------------------
  // The descriptions whose fields the codec's patterns read back

  /** A payload with a type, a dash-word encoding name and a clock rate,
      and with parameters only when it has some. */
  predicate PayloadWritable(p: Payload) {
    p.payloadType.Some?
    && p.encodingName.Some? && p.encodingName.value != [] && AllIn(p.encodingName.value, WordDash)
    && p.clockRate.Some?
    && (p.parameters.Some? ==> p.parameters.value != [] && ParamsGood(p.parameters.value))
  }

  /** At least one payload, each writable, no two of one type. */
  predicate PayloadsWritable(ps: seq<Payload>) {
    ps != []
    && AllWritable(ps)
    && (forall i, j :: 0 <= i < j < |ps| ==> ps[i].payloadType != ps[j].payloadType)
  }

  predicate RtcpWritable(r: Rtcp) {
    DollarFree(r.addressType.GetOr("IP4"))
    && (Truthy(r.address) ==>
          (r.addressType.GetOr("IP4") == "IP4" || r.addressType.GetOr("IP4") == "IP6")
          && AllIn(r.address.value, Address))
  }

  predicate SourcesWritable(m: MediaDescription) {
    OptDollarFree(m.cname) && OptDollarFree(m.mediaStreamId) && OptDollarFree(m.mediaStreamTrackId)
    && (Truthy(m.cname) ==> AllIn(m.cname.value, CnameChar))
    && (HasStream(m) ==>
          AllIn(m.mediaStreamId.value, MsidChar) && AllIn(m.mediaStreamTrackId.value, MsidChar))
  }

  predicate IceWritable(ice: Option<Ice>) {
    ice.Some? ==>
      ice.value.ufrag.Some? && AllIn(ice.value.ufrag.value, IceChar)
      && ice.value.password.Some? && AllIn(ice.value.password.value, IceChar)
      && (ice.value.candidates.Some? ==>
            forall k :: 0 <= k < |ice.value.candidates.value| ==>
              CandidateWellFormed(ice.value.candidates.value[k]))
  }

  predicate DtlsWritable(dtls: Option<Dtls>) {
    dtls.Some? ==>
      DtlsDollarFree(dtls.value)
      && (Truthy(dtls.value.fingerprint) ==>
            dtls.value.hashFunction.Some? && dtls.value.hashFunction.value in HashNames
            && AllIn(dtls.value.fingerprint.value, HexChar))
  }

  predicate SctpWritable(sctp: Option<Sctp>) {
    sctp.Some? ==>
      sctp.value.app.Some? && sctp.value.app.value != [] && AllIn(sctp.value.app.value, WordDash)
  }

  /** A description the parser reads back: no preset format list, an RTP
      line with payloads or a data line with an SCTP port, and every field
      the generator writes inside the characters its pattern reads. */
  predicate MediaWritable(m: MediaDescription) {
    m.fmt.None?
    && WrittenProtocol(m) != [] && AllIn(WrittenProtocol(m), ProtoChar)
    && (WrittenAddressType(m) == "IP4" || WrittenAddressType(m) == "IP6")
    && WrittenAddress(m) != [] && AllIn(WrittenAddress(m), Address)
    && (if WrittenProtocol(m) == SctpProtocol
        then WrittenPayloads(m) == [] && m.sctp.Some? && m.sctp.value.port.Some?
        else SdpParse.IsRtp(WrittenProtocol(m)) && PayloadsWritable(WrittenPayloads(m)))
    && RtcpWritable(WrittenRtcp(m))
    && SourcesWritable(m)
    && IceWritable(m.ice)
    && DtlsWritable(m.dtls)
    && SctpWritable(m.sctp)
  }

  // ---------------------------------------------------------------------
  // The lines of a media block

  /** The format list of the media line: the payload types, else the SCTP
      port. */
  function FmtText(m: MediaDescription): string {
    if WrittenPayloads(m) != [] then MediaFormats.AccText(MediaFormats.Fold(Types(WrittenPayloads(m))))
    else if m.sctp.Some? then NumText(m.sctp.value.port)
    else ""
  }

  function MediaLine(m: MediaDescription): string {
    MediaLineText(m.media, WrittenPort(m), WrittenProtocol(m), FmtText(m))
  }

  function ConnectionLine(m: MediaDescription): string {
    ConnectionText(WrittenAddressType(m), WrittenAddress(m))
  }

  /** The address part of the rtcp line: none without an address. */
  function RtcpAddr(r: Rtcp): Option<(string, string)> {
    if r.address.GetOr("") == "" then None else Some((r.addressType.GetOr("IP4"), r.address.value))
  }

  function RtcpGroup(r: Rtcp): seq<string> {
    if TruthyNum(r.port) then [RtcpText(r.port.value, RtcpAddr(r))] else []
  }

  function MuxGroup(r: Rtcp): seq<string> {
    if r.mux then [RtcpMuxText] else []
  }

  function ModeGroup(m: MediaDescription): seq<string> {
    [ModeText(WrittenMode(m))]
  }

  function PayloadRtpmap(p: Payload): seq<string> {
    [RtpmapText(p.payloadType, p.encodingName.GetOr(""), p.clockRate.GetOr(0), WrittenChannels(p.channels))]
  }

  function PayloadFmtp(p: Payload): seq<string> {
    if p.parameters.Some? then [FmtpText(p.payloadType, ParamsText(p.parameters.value))] else []
  }

  function FeedbackGroup(p: Payload, on: bool, kind: string): seq<string> {
    if on then [FeedbackText(p.payloadType, kind)] else []
  }

  function PayloadNack(p: Payload): seq<string> { FeedbackGroup(p, p.nack, Nack) }
  function PayloadNackPli(p: Payload): seq<string> { FeedbackGroup(p, p.nackpli, NackPli) }
  function PayloadCcmFir(p: Payload): seq<string> { FeedbackGroup(p, p.ccmfir, CcmFir) }
  function PayloadEricScream(p: Payload): seq<string> { FeedbackGroup(p, p.ericscream, EricScream) }

  /** The six payload groups: rtpmap, fmtp and the four feedback kinds,
      each over all payloads in order. */
  function PayloadPiece(ps: seq<Payload>): seq<string> {
    Flat(ps, PayloadRtpmap) + (Flat(ps, PayloadFmtp) + (Flat(ps, PayloadNack) +
      (Flat(ps, PayloadNackPli) + (Flat(ps, PayloadCcmFir) + Flat(ps, PayloadEricScream)))))
  }

  /** One cname line per ssrc. */
  function CnameFn(cname: string): nat -> seq<string> {
    (ssrc: nat) => [CnameText(ssrc, cname)]
  }

  /** The same line for every element. */
  function LineFn(line: string): nat -> seq<string> {
    (ssrc: nat) => [line]
  }

  function CnameGroup(m: MediaDescription): seq<string> {
    if Truthy(m.cname) && m.ssrcs.Some? then Flat(m.ssrcs.value, CnameFn(m.cname.value)) else []
  }

  /** An msid line per ssrc after a cname, else one msid line. */
  function MsidGroup(m: MediaDescription): seq<string> {
    if !HasStream(m) then []
    else
      var line := MsidText(m.mediaStreamId.value, m.mediaStreamTrackId.value);
      if Truthy(m.cname) && m.ssrcs.Some? then Flat(m.ssrcs.value, LineFn(line)) else [line]
  }

  function UfragGroup(ice: Option<Ice>): seq<string> {
    if ice.Some? then ["a=ice-ufrag:" + ice.value.ufrag.GetOr("")] else []
  }

  function PwdGroup(ice: Option<Ice>): seq<string> {
    if ice.Some? then ["a=ice-pwd:" + ice.value.password.GetOr("")] else []
  }

  function OptionGroup(ice: Option<Ice>): seq<string> {
    if ice.Some? && ice.value.trickle then [TrickleLine] else []
  }

  function CandidateFn(): Candidate -> seq<string> {
    c => [CandidateText(c)]
  }

  function CandidateGroup(ice: Option<Ice>): seq<string> {
    if ice.Some? && ice.value.candidates.Some? then Flat(ice.value.candidates.value, CandidateFn()) else []
  }

  function IcePiece(ice: Option<Ice>): seq<string> {
    (UfragGroup(ice) + PwdGroup(ice)) + (OptionGroup(ice) + CandidateGroup(ice))
  }

  function FingerprintGroup(dtls: Option<Dtls>): seq<string> {
    if dtls.Some? && Truthy(dtls.value.fingerprint) then
      [FingerprintText(dtls.value.hashFunction.GetOr(""), dtls.value.fingerprint.value)]
    else []
  }

  function SetupGroup(dtls: Option<Dtls>): seq<string> {
    if dtls.Some? then [SetupText(WrittenSetup(dtls.value))] else []
  }

  function SctpmapGroup(sctp: Option<Sctp>): seq<string> {
    if sctp.Some? then [SctpmapText(sctp.value.port, sctp.value.app.GetOr(""), sctp.value.streams)] else []
  }

  function TransportPiece(m: MediaDescription): seq<string> {
    FingerprintGroup(m.dtls) + (SetupGroup(m.dtls) + SctpmapGroup(m.sctp))
  }

  /** The attribute lines of a block, in the template's order. */
  function Rest(m: MediaDescription): seq<string> {
    (RtcpGroup(WrittenRtcp(m)) + MuxGroup(WrittenRtcp(m)))
    + (ModeGroup(m)
    + (PayloadPiece(WrittenPayloads(m))
    + ((CnameGroup(m) + MsidGroup(m))
    + (IcePiece(m.ice)
    + TransportPiece(m)))))
  }

  /** The lines after the media line. */
  function Body(m: MediaDescription): seq<string> {
    [ConnectionLine(m)] + Rest(m)
  }

  function BlockLines(m: MediaDescription): seq<string> {
    [MediaLine(m)] + Body(m)
  }

  // ---------------------------------------------------------------------
  // Every line the generator writes is plain text

  /** The fixed words of the attribute lines. */
  lemma WordsPlain()
    ensures Plain(" ") && Plain("/") && Plain("a=fingerprint:") && Plain("a=fmtp:") && Plain("a=rtcp-fb:") && Plain("a=rtpmap:") && Plain("a=sctpmap:") && Plain("a=setup:")
  {
    WordPlain(" ");
    WordPlain("/");
    WordPlain("a=fingerprint:");
    WordPlain("a=fmtp:");
    WordPlain("a=rtcp-fb:");
    WordPlain("a=rtpmap:");
    WordPlain("a=sctpmap:");
    WordPlain("a=setup:");
  }

  /** The fixed words of the candidate line. */
  lemma CandidateWordsPlain()
    ensures Plain(" ") && Plain(" typ ") && Plain(" raddr ") && Plain(" rport ") && Plain(" tcptype ") && Plain("a=candidate:")
  {
    WordPlain(" ");
    WordPlain(" typ ");
    WordPlain(" raddr ");
    WordPlain(" rport ");
    WordPlain(" tcptype ");
    WordPlain("a=candidate:");
  }

  /** The four feedback kinds. */
  lemma FeedbackKindsPlain()
    ensures Plain(Nack) && Plain(NackPli) && Plain(CcmFir) && Plain(EricScream)
  {
    WordPlain(Nack);
    WordPlain(NackPli);
    WordPlain(CcmFir);
    WordPlain(EricScream);
  }

  lemma WordPlain(w: string)
    requires forall i :: 0 <= i < |w| ==> w[i] != '$' && !IsTerm(w[i])
    ensures Plain(w)
  {
    forall c | c in w ensures c != '$' && !IsTerm(c) {
      var i :| 0 <= i < |w| && w[i] == c;
    }
  }

  lemma PlainCat(a: string, b: string)
    requires Plain(a) && Plain(b)
    ensures Plain(a + b)
  {
  }

  lemma PrefixedPlain(pre: string, o: Option<string>)
    requires Plain(pre) && (o.Some? ==> Plain(o.value))
    ensures Plain(Prefixed(pre, o))
  {
    if o.Some? { PlainCat(pre, o.value); }
  }

  lemma PrefixedNumPlain(pre: string, o: Option<nat>)
    requires Plain(pre)
    ensures Plain(PrefixedNum(pre, o))
  {
    if o.Some? { DecimalPlain(o.value); PlainCat(pre, Decimal(o.value)); }
  }

  lemma RtpmapPlain(p: Payload)
    requires PayloadWritable(p)
    ensures AllPlain(PayloadRtpmap(p))
  {
    WordsPlain();
    var name := p.encodingName.value;
    ClassPlain(name, WordDash);
    DecimalPlain(p.clockRate.value);
    PrefixedNumPlain("/", WrittenChannels(p.channels));
    var tail := Decimal(p.clockRate.value) + PrefixedNum("/", WrittenChannels(p.channels));
    PlainCat(Decimal(p.clockRate.value), PrefixedNum("/", WrittenChannels(p.channels)));
    PlainCat("/", tail);
    PlainCat(name, "/" + tail);
    NumTextPlain(p.payloadType);
    PlainCat("a=rtpmap:", NumText(p.payloadType));
    PlainCat("a=rtpmap:" + NumText(p.payloadType), " ");
    PlainCat("a=rtpmap:" + NumText(p.payloadType) + " ", name + ("/" + tail));
  }

  lemma FeedbackPlain(pt: Option<nat>, kind: string)
    requires Plain(kind)
    ensures Plain(FeedbackText(pt, kind))
  {
    WordsPlain();
    NumTextPlain(pt);
    PlainCat("a=rtcp-fb:", NumText(pt));
    PlainCat("a=rtcp-fb:" + NumText(pt), " ");
    PlainCat("a=rtcp-fb:" + NumText(pt) + " ", kind);
  }

  lemma FmtpPlain(pt: Option<nat>, ps: Params)
    requires ParamsGood(ps)
    ensures Plain(FmtpText(pt, ParamsText(ps)))
  {
    WordsPlain();
    var text := ParamsText(ps);
    ParamsTextChars(ps);
    ClassPlain(text, FmtpChar);
    NumTextPlain(pt);
    PlainCat("a=fmtp:", NumText(pt));
    PlainCat("a=fmtp:" + NumText(pt), " ");
    PlainCat("a=fmtp:" + NumText(pt) + " ", text);
  }

  lemma PayloadPlain(p: Payload)
    requires PayloadWritable(p)
    ensures AllPlain(PayloadRtpmap(p)) && AllPlain(PayloadFmtp(p))
    ensures AllPlain(PayloadNack(p)) && AllPlain(PayloadNackPli(p))
    ensures AllPlain(PayloadCcmFir(p)) && AllPlain(PayloadEricScream(p))
  {
    FeedbackKindsPlain();
    RtpmapPlain(p);
    if p.parameters.Some? {
      FmtpPlain(p.payloadType, p.parameters.value);
    }
    FeedbackPlain(p.payloadType, Nack);
    FeedbackPlain(p.payloadType, NackPli);
    FeedbackPlain(p.payloadType, CcmFir);
    FeedbackPlain(p.payloadType, EricScream);
  }

  lemma RtcpPlain(r: Rtcp)
    requires RtcpWritable(r)
    ensures AllPlain(RtcpGroup(r)) && AllPlain(MuxGroup(r))
  {
    if TruthyNum(r.port) {
      DecimalPlain(r.port.value);
      if Truthy(r.address) { ClassPlain(r.address.value, Address); }
    }
  }

  lemma SourcesPlain(m: MediaDescription)
    requires SourcesWritable(m)
    ensures AllPlain(CnameGroup(m)) && AllPlain(MsidGroup(m))
  {
    if Truthy(m.cname) && m.ssrcs.Some? {
      var ss := m.ssrcs.value;
      ClassPlain(m.cname.value, CnameChar);
      forall i | 0 <= i < |ss| ensures AllPlain(CnameFn(m.cname.value)(ss[i])) {
        DecimalPlain(ss[i]);
      }
      FlatPlain(ss, CnameFn(m.cname.value));
    }
    if HasStream(m) {
      ClassPlain(m.mediaStreamId.value, MsidChar);
      ClassPlain(m.mediaStreamTrackId.value, MsidChar);
      if Truthy(m.cname) && m.ssrcs.Some? {
        FlatPlain(m.ssrcs.value, LineFn(MsidText(m.mediaStreamId.value, m.mediaStreamTrackId.value)));
      }
    }
  }

  /** The candidate line after its port. */
  lemma CandidateTailPlain(c: Candidate)
    requires CandidateWellFormed(c)
    ensures Plain(" typ " + (c.typ + (Prefixed(" raddr ", c.relatedAddress)
      + (PrefixedNum(" rport ", c.relatedPort) + Prefixed(" tcptype ", c.tcpType)))))
  {
    CandidateWordsPlain();
    if c.relatedAddress.Some? { ClassPlain(c.relatedAddress.value, AddressCI); }
    PrefixedPlain(" raddr ", c.relatedAddress);
    PrefixedNumPlain(" rport ", c.relatedPort);
    PrefixedPlain(" tcptype ", c.tcpType);
    var t0 := PrefixedNum(" rport ", c.relatedPort) + Prefixed(" tcptype ", c.tcpType);
    PlainCat(PrefixedNum(" rport ", c.relatedPort), Prefixed(" tcptype ", c.tcpType));
    var t1 := Prefixed(" raddr ", c.relatedAddress) + t0;
    PlainCat(Prefixed(" raddr ", c.relatedAddress), t0);
    ClassPlain(c.typ, Letter);
    PlainCat(c.typ, t1);
    PlainCat(" typ ", c.typ + t1);
  }

  lemma CandidatePlain(c: Candidate)
    requires CandidateWellFormed(c)
    ensures Plain(CandidateText(c))
  {
    CandidateWordsPlain();
    CandidateTailPlain(c);
    var t2 := " typ " + (c.typ + (Prefixed(" raddr ", c.relatedAddress)
      + (PrefixedNum(" rport ", c.relatedPort) + Prefixed(" tcptype ", c.tcpType))));
    NumTextPlain(c.port);
    PlainCat(NumText(c.port), t2);
    var t3 := " " + (NumText(c.port) + t2);
    PlainCat(" ", NumText(c.port) + t2);
    ClassPlain(c.address, AddressCI);
    PlainCat(c.address, t3);
    var t4 := " " + (c.address + t3);
    PlainCat(" ", c.address + t3);
    NumTextPlain(c.priority);
    PlainCat(NumText(c.priority), t4);
    var t5 := " " + (NumText(c.priority) + t4);
    PlainCat(" ", NumText(c.priority) + t4);
    PlainCat(c.transport, t5);
    var t6 := " " + (c.transport + t5);
    PlainCat(" ", c.transport + t5);
    DecimalPlain(c.componentId);
    PlainCat(Decimal(c.componentId), t6);
    var t7 := " " + (Decimal(c.componentId) + t6);
    PlainCat(" ", Decimal(c.componentId) + t6);
    ClassPlain(c.foundation, Digit);
    PlainCat(c.foundation, t7);
    PlainCat("a=candidate:", c.foundation + t7);
  }

  lemma IcePlain(ice: Option<Ice>)
    requires IceWritable(ice)
    ensures AllPlain(UfragGroup(ice)) && AllPlain(PwdGroup(ice))
    ensures AllPlain(OptionGroup(ice)) && AllPlain(CandidateGroup(ice))
  {
    if ice.Some? {
      ClassPlain(ice.value.ufrag.value, IceChar);
      ClassPlain(ice.value.password.value, IceChar);
      if ice.value.candidates.Some? {
        var cs := ice.value.candidates.value;
        forall i | 0 <= i < |cs| ensures AllPlain(CandidateFn()(cs[i])) {
          CandidatePlain(cs[i]);
        }
        FlatPlain(cs, CandidateFn());
      }
    }
  }

  lemma FingerprintPlain(dtls: Option<Dtls>)
    requires DtlsWritable(dtls)
    ensures AllPlain(FingerprintGroup(dtls))
  {
    WordsPlain();
    if dtls.Some? && Truthy(dtls.value.fingerprint) {
      var h, f := dtls.value.hashFunction.value, dtls.value.fingerprint.value;
      assert Plain(h) by {
        assert h == "sha-1" || h == "sha-256";
      }
      ClassPlain(f, HexChar);
      PlainCat(h, " " + f);
      PlainCat("a=fingerprint:", h + (" " + f));
    }
  }

  lemma SetupPlain(dtls: Option<Dtls>)
    ensures AllPlain(SetupGroup(dtls))
  {
    WordsPlain();
    if dtls.Some? {
      var s := WrittenSetup(dtls.value);
      assert Plain(SetupName(s));
      PlainCat("a=setup:", SetupName(s));
    }
  }

  lemma SctpmapPlain(sctp: Option<Sctp>)
    requires SctpWritable(sctp)
    ensures AllPlain(SctpmapGroup(sctp))
  {
    WordsPlain();
    if sctp.Some? {
      var x := sctp.value;
      NumTextPlain(x.port);
      ClassPlain(x.app.value, WordDash);
      PrefixedNumPlain(" ", x.streams);
      PlainCat(x.app.value, PrefixedNum(" ", x.streams));
      PlainCat("a=sctpmap:", NumText(x.port));
      PlainCat("a=sctpmap:" + NumText(x.port), " ");
      PlainCat("a=sctpmap:" + NumText(x.port) + " ", x.app.value + PrefixedNum(" ", x.streams));
    }
  }

  lemma TransportPlain(m: MediaDescription)
    requires DtlsWritable(m.dtls) && SctpWritable(m.sctp)
    ensures AllPlain(FingerprintGroup(m.dtls)) && AllPlain(SetupGroup(m.dtls))
    ensures AllPlain(SctpmapGroup(m.sctp))
  {
    FingerprintPlain(m.dtls);
    SetupPlain(m.dtls);
    SctpmapPlain(m.sctp);
  }

  // ---------------------------------------------------------------------
  // Each stage of the generator fills its placeholders with line groups

  lemma RtpmapLineOf(p: Payload)
    requires PayloadWritable(p)
    ensures RtpMapLine(p) == Crlf(PayloadRtpmap(p))
  {
    ClassDollarFree(p.encodingName.value, WordDash);
    RtpMapFill(p);
    CrlfOne(PayloadRtpmap(p)[0]);
  }

  lemma FmtpLineOf(p: Payload)
    requires PayloadWritable(p)
    ensures FmtpLine(p) == Crlf(PayloadFmtp(p))
  {
    if p.parameters.Some? {
      ParamsTextChars(p.parameters.value);
      ClassDollarFree(ParamsText(p.parameters.value), FmtpChar);
      FmtpFill(p.payloadType, ParamsText(p.parameters.value));
      CrlfOne(PayloadFmtp(p)[0]);
    }
  }

  lemma FeedbackLinesOf(p: Payload, on: bool, kind: string)
    requires PayloadWritable(p) && DollarFree(kind)
    ensures FeedbackLine(p, on, kind) == Crlf(FeedbackGroup(p, on, kind))
  {
    if on {
      ClassDollarFree(p.encodingName.value, WordDash);
      FeedbackFill(p, kind);
      CrlfOne(FeedbackText(p.payloadType, kind));
    }
  }

  predicate AllWritable(ps: seq<Payload>) {
    forall i :: 0 <= i < |ps| ==> PayloadWritable(ps[i])
  }

  lemma RtpmapEach(ps: seq<Payload>)
    requires AllWritable(ps)
    ensures Each(ps, RtpMapLine) == Crlf(Flat(ps, PayloadRtpmap))
  {
    forall i | 0 <= i < |ps| ensures RtpMapLine(ps[i]) == Crlf(PayloadRtpmap(ps[i])) {
      RtpmapLineOf(ps[i]);
    }
    EachCrlf(ps, RtpMapLine, PayloadRtpmap);
  }

  lemma FmtpEach(ps: seq<Payload>)
    requires AllWritable(ps)
    ensures Each(ps, FmtpLine) == Crlf(Flat(ps, PayloadFmtp))
  {
    forall i | 0 <= i < |ps| ensures FmtpLine(ps[i]) == Crlf(PayloadFmtp(ps[i])) {
      FmtpLineOf(ps[i]);
    }
    EachCrlf(ps, FmtpLine, PayloadFmtp);
  }

  lemma NackEach(ps: seq<Payload>)
    requires AllWritable(ps)
    ensures Each(ps, NackLine) == Crlf(Flat(ps, PayloadNack))
  {
    forall i | 0 <= i < |ps| ensures NackLine(ps[i]) == Crlf(PayloadNack(ps[i])) {
      FeedbackLinesOf(ps[i], ps[i].nack, Nack);
    }
    EachCrlf(ps, NackLine, PayloadNack);
  }

  lemma NackPliEach(ps: seq<Payload>)
    requires AllWritable(ps)
    ensures Each(ps, NackPliLine) == Crlf(Flat(ps, PayloadNackPli))
  {
    forall i | 0 <= i < |ps| ensures NackPliLine(ps[i]) == Crlf(PayloadNackPli(ps[i])) {
      FeedbackLinesOf(ps[i], ps[i].nackpli, NackPli);
    }
    EachCrlf(ps, NackPliLine, PayloadNackPli);
  }

  lemma CcmFirEach(ps: seq<Payload>)
    requires AllWritable(ps)
    ensures Each(ps, CcmFirLine) == Crlf(Flat(ps, PayloadCcmFir))
  {
    forall i | 0 <= i < |ps| ensures CcmFirLine(ps[i]) == Crlf(PayloadCcmFir(ps[i])) {
      FeedbackLinesOf(ps[i], ps[i].ccmfir, CcmFir);
    }
    EachCrlf(ps, CcmFirLine, PayloadCcmFir);
  }

  lemma EricScreamEach(ps: seq<Payload>)
    requires AllWritable(ps)
    ensures Each(ps, EricScreamLine) == Crlf(Flat(ps, PayloadEricScream))
  {
    forall i | 0 <= i < |ps| ensures EricScreamLine(ps[i]) == Crlf(PayloadEricScream(ps[i])) {
      FeedbackLinesOf(ps[i], ps[i].ericscream, EricScream);
    }
    EachCrlf(ps, EricScreamLine, PayloadEricScream);
  }

  lemma PayloadPiecePlain(ps: seq<Payload>)
    requires AllWritable(ps)
    ensures AllPlain(Flat(ps, PayloadRtpmap)) && AllPlain(Flat(ps, PayloadFmtp))
    ensures AllPlain(Flat(ps, PayloadNack)) && AllPlain(Flat(ps, PayloadNackPli))
    ensures AllPlain(Flat(ps, PayloadCcmFir)) && AllPlain(Flat(ps, PayloadEricScream))
  {
    forall i | 0 <= i < |ps|
      ensures AllPlain(PayloadRtpmap(ps[i])) && AllPlain(PayloadFmtp(ps[i]))
      ensures AllPlain(PayloadNack(ps[i])) && AllPlain(PayloadNackPli(ps[i]))
      ensures AllPlain(PayloadCcmFir(ps[i])) && AllPlain(PayloadEricScream(ps[i]))
    {
      PayloadPlain(ps[i]);
    }
    FlatPlain(ps, PayloadRtpmap);
    FlatPlain(ps, PayloadFmtp);
    FlatPlain(ps, PayloadNack);
    FlatPlain(ps, PayloadNackPli);
    FlatPlain(ps, PayloadCcmFir);
    FlatPlain(ps, PayloadEricScream);
  }

  /** The six payload groups of the payload loop, as lines. */
  lemma PayloadStageForm(ps: seq<Payload>)
    requires AllWritable(ps)
    ensures Payloads(ps).rtpMap == Crlf(Flat(ps, PayloadRtpmap))
    ensures Payloads(ps).fmtp == Crlf(Flat(ps, PayloadFmtp))
    ensures Payloads(ps).nack == Crlf(Flat(ps, PayloadNack))
    ensures Payloads(ps).nackPli == Crlf(Flat(ps, PayloadNackPli))
    ensures Payloads(ps).ccmFir == Crlf(Flat(ps, PayloadCcmFir))
    ensures Payloads(ps).ericScream == Crlf(Flat(ps, PayloadEricScream))
  {
    PayloadsEach(ps);
    RtpmapEach(ps);
    FmtpEach(ps);
    NackEach(ps);
    NackPliEach(ps);
    CcmFirEach(ps);
    EricScreamEach(ps);
  }

  lemma RtcpStageForm(r: Rtcp)
    requires RtcpWritable(r)
    ensures RtcpStage(r) ==
      Entry("rtcpLine", Text(Crlf(RtcpGroup(r))), Entry("rtcpMuxLine", Text(Crlf(MuxGroup(r))), Done))
  {
    if TruthyNum(r.port) {
      if Truthy(r.address) { ClassDollarFree(r.address.value, Address); }
      assert DollarFree("");
      RtcpFill(r.port.value, r.addressType, r.address);
      CrlfOne(RtcpGroup(r)[0]);
    }
    if r.mux { CrlfOne(RtcpMuxText); }
  }

  lemma {:induction false} CnameLinesCrlf(m: MediaDescription, ss: seq<nat>)
    requires Truthy(m.cname) && SourcesWritable(m)
    ensures CnameLines(m, ss) == Crlf(Flat(ss, CnameFn(m.cname.value)))
  {
    if ss != [] {
      var n := |ss| - 1;
      CnameLinesCrlf(m, ss[..n]);
      ClassDollarFree(m.cname.value, CnameChar);
      CnameFill(m.cname.value, m.mediaStreamId, m.mediaStreamTrackId, ss[n]);
      CrlfOne(CnameText(ss[n], m.cname.value));
      CrlfAppend(Flat(ss[..n], CnameFn(m.cname.value)), CnameFn(m.cname.value)(ss[n]));
    }
  }

  lemma {:induction false} MsidLinesCrlf(m: MediaDescription, ss: seq<nat>)
    requires HasStream(m) && SourcesWritable(m)
    ensures MsidLines(m, ss) ==
      Crlf(Flat(ss, LineFn(MsidText(m.mediaStreamId.value, m.mediaStreamTrackId.value))))
  {
    if ss != [] {
      var n := |ss| - 1;
      var line := MsidText(m.mediaStreamId.value, m.mediaStreamTrackId.value);
      MsidLinesCrlf(m, ss[..n]);
      MsidFill(m.cname, m.mediaStreamId.value, m.mediaStreamTrackId.value, Some(ss[n]));
      CrlfOne(line);
      CrlfAppend(Flat(ss[..n], LineFn(line)), LineFn(line)(ss[n]));
    }
  }

  lemma SrcStageForm(m: MediaDescription)
    requires SourcesWritable(m)
    ensures SrcStage(m) ==
      Entry("cnameLines", Text(Crlf(CnameGroup(m))), Entry("msidLines", Text(Crlf(MsidGroup(m))), Done))
  {
    if Truthy(m.cname) && m.ssrcs.Some? {
      CnameLinesCrlf(m, m.ssrcs.value);
      if HasStream(m) { MsidLinesCrlf(m, m.ssrcs.value); }
    } else if HasStream(m) {
      var line := MsidText(m.mediaStreamId.value, m.mediaStreamTrackId.value);
      MsidFill(m.cname, m.mediaStreamId.value, m.mediaStreamTrackId.value, None);
      CrlfOne(line);
    }
  }

  /** A well-formed candidate fills the candidate template without `$`. */
  lemma CandidateInfoFree(c: Candidate)
    requires CandidateWellFormed(c)
    ensures InfoDollarFree(CandidateInfo(c))
  {
    Unfold();
    ClassDollarFree(c.foundation, Digit);
    ClassDollarFree(Decimal(c.componentId), Digit);
    if c.priority.Some? { ClassDollarFree(Decimal(c.priority.value), Digit); }
    ClassDollarFree(c.address, AddressCI);
    if c.port.Some? { ClassDollarFree(Decimal(c.port.value), Digit); }
    ClassDollarFree(c.typ, Letter);
    if c.relatedAddress.Some? { ClassDollarFree(c.relatedAddress.value, AddressCI); }
    if c.relatedPort.Some? { ClassDollarFree(Decimal(c.relatedPort.value), Digit); }
  }

  lemma CrlfTwo(x: string, y: string)
    ensures Crlf([x] + [y]) == x + "\r\n" + (y + "\r\n")
  {
    assert ([x] + [y])[1..] == [y];
    CrlfOne(y);
  }

  lemma IceStageForm(ice: Option<Ice>)
    requires IceWritable(ice)
    ensures IceStage(ice) ==
      Entry("iceCredentialLines", Text(Crlf(UfragGroup(ice) + PwdGroup(ice))),
      Entry("iceOptionLine", Text(Crlf(OptionGroup(ice))),
      Entry("candidateLines", Text(Crlf(CandidateGroup(ice))), Done)))
  {
    if ice.Some? {
      var i := ice.value;
      var u, p := i.ufrag.value, i.password.value;
      Unfold();
      ClassDollarFree(u, IceChar);
      ClassDollarFree(p, IceChar);
      IceCredentialsFill(IceInfo(i), u, p);
      CrlfTwo("a=ice-ufrag:" + u, "a=ice-pwd:" + p);
      if i.trickle { CrlfOne(TrickleLine); }
      if i.candidates.Some? {
        var cs := i.candidates.value;
        forall k | 0 <= k < |cs| ensures CandidateLine(cs[k]) == Crlf(CandidateFn()(cs[k])) {
          CandidateInfoFree(cs[k]);
          CandidateFill(cs[k]);
          CrlfOne(CandidateText(cs[k]));
        }
        EachCrlf(cs, CandidateLine, CandidateFn());
      }
    }
  }

  lemma DtlsStageForm(dtls: Option<Dtls>)
    requires DtlsWritable(dtls)
    ensures DtlsStage(dtls) ==
      Entry("dtlsFingerprintLine", Text(Crlf(FingerprintGroup(dtls))),
      Entry("dtlsSetupLine", Text(Crlf(SetupGroup(dtls))), Done))
  {
    if dtls.Some? {
      var d := dtls.value;
      if Truthy(d.fingerprint) {
        FingerprintFill(d);
        CrlfOne(FingerprintGroup(dtls)[0]);
      }
      SetupFill(d);
      CrlfOne(SetupText(WrittenSetup(d)));
    }
  }

  lemma SctpStageForm(sctp: Option<Sctp>)
    requires SctpWritable(sctp)
    ensures SctpStage(sctp) ==
      Entry("sctpmapLine", Text(Crlf(SctpmapGroup(sctp))),
      Entry("fmt", if sctp.Some? then OptNum(sctp.value.port) else Text(""), Done))
  {
    if sctp.Some? {
      ClassDollarFree(sctp.value.app.value, WordDash);
      SctpmapFill(sctp.value);
      CrlfOne(SctpmapGroup(sctp)[0]);
    }
  }
}
